// The API objects the controller reads and writes, the kubeconfig it wants for a shoot, and the
// filters that decide which update events of these objects lead to a reconcile.
module Rendering {
  import opened Objects
  import opened Kubeconfig

  datatype Address = Address(name: string, url: string)
  datatype Shoot = Shoot(uid: string, addresses: seq<Address>, version: string)

  /** The raw data of a resource: either not a JSON object of byte strings, or its fields. */
  datatype Raw = Unparsable | Fields(fields: map<string, seq<byte>>)
  datatype ResourceData = ResourceData(name: string, kind: string, raw: Raw)
  datatype ShootState = ShootState(gardener: seq<ResourceData>)

  /** A controller owner reference to a Shoot. */
  datatype OwnerRef = OwnerRef(name: string, uid: string)
  datatype ConfigMap = ConfigMap(labels: map<string, string>, data: map<string, string>, owner: Option<OwnerRef>)

  const KUBECONFIG_SUFFIX := ".kubeconfig"
  const ROLE_LABEL := "operations.gardener.cloud/role"
  const KUBECONFIG_ROLE := "kubeconfig"
  const KUBECONFIG_DATA := "kubeconfig"
  const CLUSTER_IDENTITY := "cluster-identity"
  const CA_RESOURCE := "ca"
  const CA_FIELD := "ca.crt"
  const CA_FIELD_OF_CERTIFICATES := "certificate"

  /** What the controller calls but does not define, and what is fixed while it runs. */
  datatype Platform = Platform(
    certificateParses: seq<byte> -> bool,
    hostOf: string -> Option<string>,
    legacyVersion: string -> Option<bool>,
    encode: Config -> string,
    identity: Option<map<string, string>>,
    maxConcurrentReconciles: int)

  // The certificate of a cluster

  datatype CaResult = NotProvisioned | Malformed | Certificate(bytes: seq<byte>)

  function FindResource(list: seq<ResourceData>, name: string): Option<ResourceData> {
    if list == [] then None
    else if list[0].name == name then Some(list[0])
    else FindResource(list[1..], name)
  }

  function ClusterCaCert(state: ShootState): CaResult {
    match FindResource(state.gardener, CA_RESOURCE)
    case None => NotProvisioned
    case Some(ca) =>
      match ca.raw
      case Unparsable => Malformed
      case Fields(fields) =>
        var field := if ca.kind == "certificate" then CA_FIELD_OF_CERTIFICATES else CA_FIELD;
        Certificate(if field in fields then fields[field] else [])
  }

  /** The first entry for the certificate authority. */
  predicate CaEntryAt(state: ShootState, i: nat) {
    i < |state.gardener| && state.gardener[i].name == "ca" && forall j | 0 <= j < i :: state.gardener[j].name != "ca"
  }

  lemma {:induction false} FoundFirst(list: seq<ResourceData>, name: string, i: nat)
    requires i < |list| && list[i].name == name && forall j | 0 <= j < i :: list[j].name != name
    ensures FindResource(list, name) == Some(list[i])
  {
    if i == 0 {
    } else {
      FoundFirst(list[1..], name, i - 1);
    }
  }

  lemma {:induction false} NotFound(list: seq<ResourceData>, name: string)
    requires forall r <- list :: r.name != name
    ensures FindResource(list, name) == None
  {
    if list == [] {
    } else {
      NotFound(list[1..], name);
    }
  }

  /** Which bytes are read: those of the first entry "ca", if its raw data can be parsed, under "certificate" for an
      entry of that type and under "ca.crt" for any other, and none if there is no such field. */
  lemma CaCertIsRead(state: ShootState)
    ensures (forall r <- state.gardener :: r.name != "ca") ==> ClusterCaCert(state) == NotProvisioned
    ensures forall i: nat | CaEntryAt(state, i) ::
              var entry := state.gardener[i];
              var field := if entry.kind == "certificate" then "certificate" else "ca.crt";
              ClusterCaCert(state) ==
              if entry.raw.Unparsable? then Malformed
              else if field in entry.raw.fields then Certificate(entry.raw.fields[field])
              else Certificate([])
  {
    if forall r <- state.gardener :: r.name != "ca" {
      NotFound(state.gardener, "ca");
    }
    forall i: nat | CaEntryAt(state, i) ensures FindResource(state.gardener, "ca") == Some(state.gardener[i]) {
      FoundFirst(state.gardener, "ca", i);
    }
  }

  /** These bytes are stored as the certificate of the cluster. */
  ghost predicate StoresCa(state: ShootState, bytes: seq<byte>) {
    exists i: nat :: CaEntryAt(state, i)
      && state.gardener[i].raw.Fields?
      && Find(state.gardener[i].raw.fields, if state.gardener[i].kind == "certificate" then "certificate" else "ca.crt")
         == Some(bytes)
  }

  lemma {:induction false} FirstCaEntry(state: ShootState, bound: nat) returns (i: nat)
    requires bound < |state.gardener| && state.gardener[bound].name == "ca"
    ensures i <= bound && CaEntryAt(state, i)
  {
    if j: nat :| j < bound && state.gardener[j].name == "ca" {
      i := FirstCaEntry(state, j);
    } else {
      i := bound;
    }
  }

  /** Nonempty bytes are read exactly when they are stored. */
  lemma CaIsReadExactly(state: ShootState, bytes: seq<byte>)
    requires bytes != []
    ensures ClusterCaCert(state) == Certificate(bytes) <==> StoresCa(state, bytes)
  {
    CaCertIsRead(state);
    if r :| r in state.gardener && r.name == "ca" {
      var bound: nat :| bound < |state.gardener| && state.gardener[bound] == r;
      var i := FirstCaEntry(state, bound);
      assert forall j: nat | CaEntryAt(state, j) :: j == i;
    }
  }

  /** Empty data holds no PEM block; everything else is up to the certificate parser. */
  predicate ValidCertificate(p: Platform, bytes: seq<byte>) {
    bytes != [] && p.certificateParses(bytes)
  }

  // The kubeconfig a shoot should have

  function EndpointsOf(p: Platform, addresses: seq<Address>, caCert: seq<byte>): Option<seq<Endpoint>> {
    if forall a <- addresses :: p.hostOf(a.url).Some? then
      Some(seq(|addresses|, i requires 0 <= i < |addresses| =>
        assert addresses[i] in addresses;
        Endpoint(addresses[i].name, p.hostOf(addresses[i].url).value, caCert)))
    else None
  }

  function RequestOf(k: Key, endpoints: seq<Endpoint>, identity: map<string, string>): Request {
    Request(endpoints, k.namespace, k.name, Index(identity, CLUSTER_IDENTITY))
  }

  /** The encoded kubeconfig for a shoot, if the inputs allow one to be rendered. */
  function Desired(p: Platform, k: Key, shoot: Shoot, state: ShootState): Option<string> {
    var ca := ClusterCaCert(state);
    if !ca.Certificate? || !ValidCertificate(p, ca.bytes) || p.identity.None? then None else
    var endpoints := EndpointsOf(p, shoot.addresses, ca.bytes);
    if endpoints.None? then None else
    var request := RequestOf(k, endpoints.value, p.identity.value);
    if !Complete(request) || p.legacyVersion(shoot.version).None? then None else
    Some(p.encode(Generate(request, p.legacyVersion(shoot.version).value)))
  }

  /** Everything a kubeconfig is made of can be read, and nothing required is empty. */
  ghost predicate Renderable(p: Platform, k: Key, shoot: Shoot, state: ShootState) {
    && (exists bytes :: bytes != [] && StoresCa(state, bytes) && p.certificateParses(bytes))
    && p.identity.Some?
    && "cluster-identity" in p.identity.value && p.identity.value["cluster-identity"] != ""
    && shoot.addresses != []
    && (forall a <- shoot.addresses :: a.name != "" && p.hostOf(a.url).Some? && p.hostOf(a.url).value != "")
    && k.namespace != "" && k.name != ""
    && p.legacyVersion(shoot.version).Some?
  }

  lemma EndpointsAreComplete(p: Platform, addresses: seq<Address>, ca: seq<byte>)
    requires EndpointsOf(p, addresses, ca).Some?
    ensures
      var endpoints := EndpointsOf(p, addresses, ca).value;
      && |endpoints| == |addresses|
      && (forall i | 0 <= i < |addresses| ::
            && p.hostOf(addresses[i].url).Some?
            && endpoints[i] == Endpoint(addresses[i].name, p.hostOf(addresses[i].url).value, ca))
      && ((forall e <- endpoints :: CompleteEndpoint(e)) <==>
          forall a <- addresses :: a.name != "" && p.hostOf(a.url).value != "")
  {
    var endpoints := EndpointsOf(p, addresses, ca).value;
    forall i | 0 <= i < |addresses| ensures addresses[i] in addresses && endpoints[i] in endpoints {
    }
  }

  /** A kubeconfig is rendered exactly when it can be. */
  lemma RenderableExactly(p: Platform, k: Key, shoot: Shoot, state: ShootState)
    ensures Desired(p, k, shoot, state).Some? <==> Renderable(p, k, shoot, state)
  {
    var ca := ClusterCaCert(state);
    if ca.Certificate? && ca.bytes != [] {
      CaIsReadExactly(state, ca.bytes);
      if EndpointsOf(p, shoot.addresses, ca.bytes).Some? {
        EndpointsAreComplete(p, shoot.addresses, ca.bytes);
      }
    }
    if bytes :| bytes != [] && StoresCa(state, bytes) && p.certificateParses(bytes) {
      CaIsReadExactly(state, bytes);
    }
  }

  /** A context of the kubeconfig, named after the address, leads to the host of the address under the stored
      certificate, and tells the plugin which shoot of which garden it is for, in the layout of the version. */
  ghost predicate LeadsToShoot(p: Platform, k: Key, shoot: Shoot, state: ShootState, config: Config, i: nat)
    requires i < |shoot.addresses| && p.identity.Some?
  {
    var a := shoot.addresses[i];
    var name := k.namespace + "--" + k.name + "-" + a.name;
    && i < |config.clusters|
    && config.clusters[i].name == name
    && p.hostOf(a.url).Some?
    && config.clusters[i].value.server == "https://" + p.hostOf(a.url).value
    && StoresCa(state, config.clusters[i].value.caCert)
    && p.certificateParses(config.clusters[i].value.caCert)
    && (config.clusters[i].value.extensions == [] <==> p.legacyVersion(shoot.version) == Some(true))
    && Decode(config, name)
       == Some(ExecPluginConfig(ShootRef(k.namespace, k.name), Index(p.identity.value, "cluster-identity")))
  }

  /** The ConfigMap carries the label and an encoded kubeconfig with which a client gets to the shoot by each of its
      addresses, and by default by the first one. */
  ghost predicate GivesAccess(p: Platform, k: Key, shoot: Shoot, state: ShootState, cm: ConfigMap) {
    && Find(cm.labels, "operations.gardener.cloud/role") == Some("kubeconfig")
    && p.identity.Some? && shoot.addresses != []
    && exists config: Config ::
         && Index(cm.data, "kubeconfig") == p.encode(config)
         && |config.clusters| == |shoot.addresses|
         && config.currentContext == k.namespace + "--" + k.name + "-" + shoot.addresses[0].name
         && forall i | 0 <= i < |shoot.addresses| :: LeadsToShoot(p, k, shoot, state, config, i)
  }

  predicate HasRole(cm: ConfigMap) {
    Index(cm.labels, ROLE_LABEL) == KUBECONFIG_ROLE
  }

  /** The ConfigMap carries the role label and exactly this kubeconfig. */
  predicate InSync(cm: ConfigMap, kubeconfig: string) {
    HasRole(cm) && Index(cm.data, KUBECONFIG_DATA) == kubeconfig
  }

  /** What a create or update does to the ConfigMap it started from. */
  function Mutate(cm: ConfigMap, k: Key, shoot: Shoot, kubeconfig: string): ConfigMap {
    ConfigMap(cm.labels[ROLE_LABEL := KUBECONFIG_ROLE], cm.data[KUBECONFIG_DATA := kubeconfig],
              Some(OwnerRef(k.name, shoot.uid)))
  }

  lemma RequestLeadsToShoot(
    p: Platform, k: Key, shoot: Shoot, state: ShootState, request: Request, legacy: bool, i: nat)
    requires i < |shoot.addresses| && p.identity.Some?
    requires p.hostOf(shoot.addresses[i].url).Some?
    requires request.namespace == k.namespace && request.shootName == k.name
    requires request.gardenClusterIdentity == Index(p.identity.value, "cluster-identity")
    requires |request.clusters| == |shoot.addresses|
    requires StoresCa(state, request.clusters[i].caCert) && p.certificateParses(request.clusters[i].caCert)
    requires request.clusters[i].name == shoot.addresses[i].name
    requires request.clusters[i].apiServerHost == p.hostOf(shoot.addresses[i].url).value
    requires p.legacyVersion(shoot.version) == Some(legacy)
    ensures LeadsToShoot(p, k, shoot, state, Generate(request, legacy), i)
  {
    EntryPerAddress(request, legacy);
    LayoutsAgree(request, legacy, i);
  }

  /** A ConfigMap in sync with the rendered kubeconfig gives access to the shoot. */
  lemma InSyncGivesAccess(p: Platform, k: Key, shoot: Shoot, state: ShootState, cm: ConfigMap)
    requires Desired(p, k, shoot, state).Some? && InSync(cm, Desired(p, k, shoot, state).value)
    ensures GivesAccess(p, k, shoot, state, cm)
  {
    var ca := ClusterCaCert(state).bytes;
    CaIsReadExactly(state, ca);
    EndpointsAreComplete(p, shoot.addresses, ca);
    var request := RequestOf(k, EndpointsOf(p, shoot.addresses, ca).value, p.identity.value);
    var legacy := p.legacyVersion(shoot.version).value;
    var config := Generate(request, legacy);
    EntryPerAddress(request, legacy);
    forall i | 0 <= i < |shoot.addresses| ensures LeadsToShoot(p, k, shoot, state, config, i) {
      RequestLeadsToShoot(p, k, shoot, state, request, legacy, i);
    }
  }

  // Which update events are handled; create and delete events always are

  /** The advertised addresses differ in name, URL, number or order. */
  predicate ShootUpdatePasses(old': Shoot, new': Shoot) {
    old'.addresses != new'.addresses
  }

  method ShootPredicate(old': Shoot, new': Shoot) returns (handle: bool)
    ensures handle <==> ShootUpdatePasses(old', new')
    ensures handle <==> old'.addresses != new'.addresses
  {
    if |old'.addresses| != |new'.addresses| {
      return true;
    }
    var i := 0;
    while i < |new'.addresses|
      invariant 0 <= i <= |new'.addresses|
      invariant forall j | 0 <= j < i :: old'.addresses[j] == new'.addresses[j]
    {
      if old'.addresses[i].name != new'.addresses[i].name {
        return true;
      }
      if old'.addresses[i].url != new'.addresses[i].url {
        return true;
      }
      i := i + 1;
    }
    return false;
  }

  predicate ShootStateUpdatePasses(old': ShootState, new': ShootState) {
    var oldCa, newCa := ClusterCaCert(old'), ClusterCaCert(new');
    if oldCa.Malformed? then false
    else if !newCa.Certificate? then false
    else (if oldCa.Certificate? then oldCa.bytes else []) != newCa.bytes
  }

  predicate ConfigMapUpdatePasses(old': ConfigMap, new': ConfigMap) {
    if !HasRole(old') && !HasRole(new') then false
    else if Index(old'.labels, ROLE_LABEL) != Index(new'.labels, ROLE_LABEL) then true
    else Index(old'.data, KUBECONFIG_DATA) != Index(new'.data, KUBECONFIG_DATA)
  }

  // What dropping an update event may cost

  /** The update moves the shoot to a version of the other layout (or to its first readable one) and nothing else wakes
      the controller. */
  predicate LossyShootUpdate(p: Platform, old': Shoot, new': Shoot) {
    && !ShootUpdatePasses(old', new')
    && p.legacyVersion(new'.version).Some?
    && p.legacyVersion(old'.version) != p.legacyVersion(new'.version)
  }

  /** The update replaces an unreadable certificate entry by a readable one. */
  predicate LossyStateUpdate(old': ShootState, new': ShootState) {
    && !ShootStateUpdatePasses(old', new')
    && ClusterCaCert(old').Malformed?
    && ClusterCaCert(new').Certificate? && ClusterCaCert(new').bytes != []
  }

  ghost predicate EncodesInjectively(p: Platform) {
    forall a, b :: p.encode(a) == p.encode(b) ==> a == b
  }

  lemma DroppedShootUpdate(p: Platform, k: Key, old': Shoot, new': Shoot, state: ShootState)
    requires !ShootUpdatePasses(old', new') && !LossyShootUpdate(p, old', new')
    ensures Desired(p, k, new', state).Some? ==> Desired(p, k, old', state) == Desired(p, k, new', state)
  {
  }

  /** A dropped shoot update leaves the wanted kubeconfig alone exactly when the version class stays. */
  lemma DroppedShootUpdateExactly(p: Platform, k: Key, old': Shoot, new': Shoot, state: ShootState)
    requires EncodesInjectively(p)
    requires !ShootUpdatePasses(old', new')
    requires Desired(p, k, new', state).Some?
    ensures Desired(p, k, old', state) == Desired(p, k, new', state) <==> !LossyShootUpdate(p, old', new')
  {
    if LossyShootUpdate(p, old', new') && p.legacyVersion(old'.version).Some? {
      var endpoints := EndpointsOf(p, new'.addresses, ClusterCaCert(state).bytes).value;
      LayoutsDifferOnlyInReference(RequestOf(k, endpoints, p.identity.value));
    }
  }

  /** A dropped ShootState update leaves the wanted kubeconfig alone exactly when the old entry was readable. */
  lemma DroppedStateUpdateExactly(p: Platform, k: Key, shoot: Shoot, old': ShootState, new': ShootState)
    requires !ShootStateUpdatePasses(old', new')
    requires Desired(p, k, shoot, new').Some?
    ensures Desired(p, k, shoot, old') == Desired(p, k, shoot, new') <==> !LossyStateUpdate(old', new')
    ensures LossyStateUpdate(old', new') <==> ClusterCaCert(old').Malformed?
  {
  }

  /** A platform on which different certificates show in the kubeconfig. */
  function Discerning(bytes: seq<byte>): Platform {
    var encode := (config: Config) =>
        if config.clusters != [] && config.clusters[0].value.caCert == bytes then "these" else "others";
    Platform(_ => true, _ => Some("host"), _ => Some(false), encode, Some(map["cluster-identity" := "garden"]), 1)
  }

  lemma DiscernedExactly(bytes: seq<byte>, state: ShootState)
    ensures
      var ca := ClusterCaCert(state);
      Desired(Discerning(bytes), Key("namespace", "shoot"), Shoot("uid", [Address("external", "url")], "1.0"), state) ==
      if !ca.Certificate? || ca.bytes == [] then None
      else if ca.bytes == bytes then Some("these") else Some("others")
  {
    var p, k, shoot := Discerning(bytes), Key("namespace", "shoot"), Shoot("uid", [Address("external", "url")], "1.0");
    var ca := ClusterCaCert(state);
    if ca.Certificate? && ca.bytes != [] {
      var endpoints := EndpointsOf(p, shoot.addresses, ca.bytes).value;
      assert endpoints == [Endpoint("external", "host", ca.bytes)];
      var request := RequestOf(k, endpoints, p.identity.value);
      assert Generate(request, false).clusters[0].value.caCert == ca.bytes;
    }
  }

  /** The ShootState filter is exact where both entries can be read: it handles an update if and only if the change can
      make a difference to some kubeconfig. An entry that is unreadable before, or that is unreadable or gone
      afterwards, is never handled. */
  lemma ShootStateFilterIsExact(old': ShootState, new': ShootState)
    ensures ShootStateUpdatePasses(old', new') <==>
            && !ClusterCaCert(old').Malformed? && ClusterCaCert(new').Certificate?
            && exists p, k, shoot :: Desired(p, k, shoot, old') != Desired(p, k, shoot, new')
  {
    if !ClusterCaCert(old').Malformed? && ClusterCaCert(new').Certificate? {
      var bytes := ClusterCaCert(new').bytes;
      DiscernedExactly(bytes, old');
      DiscernedExactly(bytes, new');
    }
  }

  /** The ConfigMap filter is exact: it handles an update if and only if it changes what the ConfigMap is in sync
      with. */
  lemma ConfigMapFilterIsExact(old': ConfigMap, new': ConfigMap)
    ensures ConfigMapUpdatePasses(old', new') <==> exists t: string :: InSync(old', t) != InSync(new', t)
  {
    if ConfigMapUpdatePasses(old', new') {
      var t := Index(if HasRole(old') then old'.data else new'.data, KUBECONFIG_DATA);
      assert InSync(old', t) != InSync(new', t);
    }
  }

  /** Writing brings the ConfigMap in sync, keeps every other label and data entry, and is idempotent. */
  lemma MutateKeepsTheRest(cm: ConfigMap, k: Key, shoot: Shoot, kubeconfig: string)
    ensures
      var cm' := Mutate(cm, k, shoot, kubeconfig);
      && InSync(cm', kubeconfig)
      && Mutate(cm', k, shoot, kubeconfig) == cm'
      && (forall n | n != ROLE_LABEL :: Find(cm'.labels, n) == Find(cm.labels, n))
      && (forall n | n != KUBECONFIG_DATA :: Find(cm'.data, n) == Find(cm.data, n))
  {
  }
}
