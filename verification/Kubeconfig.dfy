// Validation and rendering of kubeconfigs, in the legacy layout (shoot reference passed as command
// line flags) and the modern one (shoot reference passed as cluster extension).
module Kubeconfig {
  import opened Objects

  /** One address on which the kube-apiserver of the shoot can be reached. */
  datatype Endpoint = Endpoint(name: string, apiServerHost: string, caCert: seq<byte>)

  datatype Request = Request(
    clusters: seq<Endpoint>,
    namespace: string,
    shootName: string,
    gardenClusterIdentity: string)

  datatype ShootRef = ShootRef(namespace: string, name: string)
  datatype ExecPluginConfig = ExecPluginConfig(shootRef: ShootRef, gardenClusterIdentity: string)

  datatype Named<T> = Named(name: string, value: T)

  datatype Cluster = Cluster(server: string, caCert: seq<byte>, extensions: seq<Named<ExecPluginConfig>>)
  datatype Context = Context(cluster: string, user: string)
  datatype Exec = Exec(command: string, args: seq<string>, apiVersion: string, provideClusterInfo: bool)

  datatype Config = Config(
    currentContext: string,
    clusters: seq<Named<Cluster>>,
    contexts: seq<Named<Context>>,
    users: seq<Named<Exec>>)

  datatype RequestError =
    | MissingClusters
    | MissingClusterName(index: nat)
    | MissingApiServerHost(index: nat)
    | MissingNamespace
    | MissingShootName
    | MissingIdentity

  // Validation

  predicate CompleteEndpoint(e: Endpoint) {
    e.name != "" && e.apiServerHost != ""
  }

  /** Every field a kubeconfig needs is set. */
  predicate Complete(r: Request) {
    && r.clusters != []
    && (forall e <- r.clusters :: CompleteEndpoint(e))
    && r.namespace != "" && r.shootName != "" && r.gardenClusterIdentity != ""
  }

  predicate FirstIncomplete(r: Request, i: nat) {
    && i < |r.clusters|
    && !CompleteEndpoint(r.clusters[i])
    && forall j | 0 <= j < i :: CompleteEndpoint(r.clusters[j])
  }

  /** The first thing that is missing, in the order clusters, namespace, shoot, identity. */
  predicate FirstMissing(r: Request, error: RequestError) {
    var completeClusters := r.clusters != [] && forall e <- r.clusters :: CompleteEndpoint(e);
    match error
    case MissingClusters => r.clusters == []
    case MissingClusterName(i) => FirstIncomplete(r, i) && r.clusters[i].name == ""
    case MissingApiServerHost(i) => FirstIncomplete(r, i) && r.clusters[i].name != ""
    case MissingNamespace => completeClusters && r.namespace == ""
    case MissingShootName => completeClusters && r.namespace != "" && r.shootName == ""
    case MissingIdentity =>
      completeClusters && r.namespace != "" && r.shootName != "" && r.gardenClusterIdentity == ""
  }

  method Validate(r: Request) returns (error: Option<RequestError>)
    ensures error.None? <==> Complete(r)
    ensures error.None? <==>
            && r.clusters != [] && (forall e <- r.clusters :: e.name != "" && e.apiServerHost != "")
            && r.namespace != "" && r.shootName != "" && r.gardenClusterIdentity != ""
    ensures forall e :: FirstMissing(r, e) <==> error == Some(e)
  {
    if |r.clusters| == 0 {
      return Some(MissingClusters);
    }
    var n := 0;
    while n < |r.clusters|
      invariant 0 <= n <= |r.clusters|
      invariant forall j | 0 <= j < n :: CompleteEndpoint(r.clusters[j])
    {
      assert r.clusters[n] in r.clusters;
      if r.clusters[n].name == "" {
        return Some(MissingClusterName(n));
      }
      if r.clusters[n].apiServerHost == "" {
        return Some(MissingApiServerHost(n));
      }
      n := n + 1;
    }
    if r.namespace == "" {
      return Some(MissingNamespace);
    }
    if r.shootName == "" {
      return Some(MissingShootName);
    }
    if r.gardenClusterIdentity == "" {
      return Some(MissingIdentity);
    }
    return None;
  }

  // Rendering

  const EXEC_EXTENSION := "client.authentication.k8s.io/exec"
  const NAME_FLAG := "--name="
  const NAMESPACE_FLAG := "--namespace="
  const IDENTITY_FLAG := "--garden-cluster-identity="

  function AuthName(namespace: string, shootName: string): string {
    namespace + "--" + shootName
  }

  function EntryName(authName: string, address: string): string {
    authName + "-" + address
  }

  function LegacyArgs(r: Request): seq<string> {
    [NAME_FLAG + r.shootName, NAMESPACE_FLAG + r.namespace, IDENTITY_FLAG + r.gardenClusterIdentity]
  }

  function PluginConfig(r: Request): ExecPluginConfig {
    ExecPluginConfig(ShootRef(r.namespace, r.shootName), r.gardenClusterIdentity)
  }

  function UserOf(r: Request, legacy: bool): Named<Exec> {
    Named(AuthName(r.namespace, r.shootName),
          Exec("kubectl",
               ["gardenlogin", "get-client-certificate"] + (if legacy then LegacyArgs(r) else []),
               "client.authentication.k8s.io/v1beta1",
               true))
  }

  function ExtensionsOf(r: Request, legacy: bool): seq<Named<ExecPluginConfig>> {
    if legacy then [] else [Named(EXEC_EXTENSION, PluginConfig(r))]
  }

  function ClusterOf(r: Request, legacy: bool, e: Endpoint): Named<Cluster> {
    Named(EntryName(AuthName(r.namespace, r.shootName), e.name),
          Cluster("https://" + e.apiServerHost, e.caCert, ExtensionsOf(r, legacy)))
  }

  function ContextOf(r: Request, e: Endpoint): Named<Context> {
    var authName := AuthName(r.namespace, r.shootName);
    Named(EntryName(authName, e.name), Context(EntryName(authName, e.name), authName))
  }

  /** The kubeconfig of a request: one cluster and one context per address, in order, and one user. */
  function Generate(r: Request, legacy: bool): Config
    requires r.clusters != []
  {
    Config(EntryName(AuthName(r.namespace, r.shootName), r.clusters[0].name),
           seq(|r.clusters|, i requires 0 <= i < |r.clusters| => ClusterOf(r, legacy, r.clusters[i])),
           seq(|r.clusters|, i requires 0 <= i < |r.clusters| => ContextOf(r, r.clusters[i])),
           [UserOf(r, legacy)])
  }

  /** The only user runs the plugin, which gets the cluster extension from kubectl, and in the legacy layout the shoot
      reference on its command line. */
  lemma OnlyUser(r: Request, legacy: bool)
    requires r.clusters != []
    ensures
      var users := Generate(r, legacy).users;
      var exec := users[0].value;
      && |users| == 1 && users[0].name == r.namespace + "--" + r.shootName
      && exec.command == "kubectl"
      && exec.apiVersion == "client.authentication.k8s.io/v1beta1"
      && exec.provideClusterInfo
      && exec.args == ["gardenlogin", "get-client-certificate"]
         + if legacy then
             ["--name=" + r.shootName, "--namespace=" + r.namespace,
              "--garden-cluster-identity=" + r.gardenClusterIdentity]
           else []
  {
    assert Generate(r, legacy).users == [UserOf(r, legacy)];
  }

  /** One cluster and one context per address, in order, and the first one is current. */
  lemma EntryPerAddress(r: Request, legacy: bool)
    requires r.clusters != []
    ensures
      var config, auth := Generate(r, legacy), r.namespace + "--" + r.shootName;
      && |config.clusters| == |config.contexts| == |r.clusters|
      && config.currentContext == auth + "-" + r.clusters[0].name
      && forall i | 0 <= i < |r.clusters| ::
           var entry, cluster := auth + "-" + r.clusters[i].name, config.clusters[i].value;
           && config.clusters[i].name == entry
           && config.contexts[i] == Named(entry, Context(entry, auth))
           && cluster.server == "https://" + r.clusters[i].apiServerHost
           && cluster.caCert == r.clusters[i].caCert
           && cluster.extensions ==
              if legacy then []
              else [Named("client.authentication.k8s.io/exec",
                          ExecPluginConfig(ShootRef(r.namespace, r.shootName), r.gardenClusterIdentity))]
  {
  }

  method GenerateConfig(r: Request, legacy: bool) returns (config: Config)
    requires r.clusters != []
    ensures config == Generate(r, legacy)
  {
    var authName := AuthName(r.namespace, r.shootName);
    var name := EntryName(authName, r.clusters[0].name);
    var legacyArgs := [];
    if legacy {
      legacyArgs := LegacyArgs(r);
    }
    var exec := Exec("kubectl", ["gardenlogin", "get-client-certificate"] + legacyArgs,
                     "client.authentication.k8s.io/v1beta1", true);
    config := Config(name, [], [], [Named(authName, exec)]);
    var extensions := [];
    if !legacy {
      extensions := [Named(EXEC_EXTENSION, PluginConfig(r))];
    }
    var i := 0;
    while i < |r.clusters|
      invariant 0 <= i <= |r.clusters|
      invariant config.currentContext == name && config.users == [UserOf(r, legacy)]
      invariant |config.clusters| == i && |config.contexts| == i
      invariant forall j | 0 <= j < i :: config.clusters[j] == ClusterOf(r, legacy, r.clusters[j])
      invariant forall j | 0 <= j < i :: config.contexts[j] == ContextOf(r, r.clusters[j])
    {
      var cluster := r.clusters[i];
      var entry := EntryName(authName, cluster.name);
      config := config.(
      clusters := config.clusters
      + [Named(entry, Cluster("https://" + cluster.apiServerHost, cluster.caCert, extensions))],
      contexts := config.contexts + [Named(entry, Context(entry, authName))]);
      i := i + 1;
    }
  }

  // What a client reads out of a kubeconfig

  /** The first entry of a name. */
  function Lookup<T>(entries: seq<Named<T>>, name: string): Option<T> {
    if entries == [] then None
    else if entries[0].name == name then Some(entries[0].value)
    else Lookup(entries[1..], name)
  }

  datatype Access = Access(cluster: Cluster, exec: Exec)

  /** Follows a context to its cluster and its user. */
  function Resolve(config: Config, context: string): Option<Access> {
    match Lookup(config.contexts, context)
    case None => None
    case Some(c) =>
      match (Lookup(config.clusters, c.cluster), Lookup(config.users, c.user))
      case (Some(cluster), Some(exec)) => Some(Access(cluster, exec))
      case (_, _) => None
  }

  lemma {:induction false} LookupFirst<T>(entries: seq<Named<T>>, i: nat)
    requires i < |entries|
    requires forall j | 0 <= j < i :: entries[j].name != entries[i].name
    ensures Lookup(entries, entries[i].name) == Some(entries[i].value)
  {
    if i == 0 {
    } else {
      LookupFirst(entries[1..], i - 1);
    }
  }

  lemma {:induction false} LookupMissing<T>(entries: seq<Named<T>>, name: string)
    requires forall e <- entries :: e.name != name
    ensures Lookup(entries, name) == None
  {
    if entries == [] {
    } else {
      LookupMissing(entries[1..], name);
    }
  }

  lemma EntryNameInjective(authName: string, a: string, b: string)
    requires EntryName(authName, a) == EntryName(authName, b)
    ensures a == b
  {
    assert EntryName(authName, a)[|authName| + 1..] == a;
    assert EntryName(authName, b)[|authName| + 1..] == b;
  }

  ghost predicate FirstOfItsName(r: Request, i: nat)
    requires i < |r.clusters|
  {
    forall j | 0 <= j < i :: r.clusters[j].name != r.clusters[i].name
  }

  /** The context of an address leads to that address' own host and certificate, and to the only user. */
  lemma ResolvesToAddress(r: Request, legacy: bool, i: nat)
    requires i < |r.clusters| && FirstOfItsName(r, i)
    ensures
      var e := r.clusters[i];
      Resolve(Generate(r, legacy), EntryName(AuthName(r.namespace, r.shootName), e.name))
      == Some(Access(Cluster("https://" + e.apiServerHost, e.caCert, ExtensionsOf(r, legacy)), UserOf(r, legacy).value))
  {
    var config := Generate(r, legacy);
    var authName := AuthName(r.namespace, r.shootName);
    forall j | 0 <= j < i
      ensures config.contexts[j].name != config.contexts[i].name
      ensures config.clusters[j].name != config.clusters[i].name
    {
      if config.contexts[j].name == config.contexts[i].name {
        EntryNameInjective(authName, r.clusters[j].name, r.clusters[i].name);
      }
    }
    LookupFirst(config.contexts, i);
    LookupFirst(config.clusters, i);
    LookupFirst(config.users, 0);
  }

  /** The current context always resolves, to the first address; and no context but the addresses' own resolves. */
  lemma ResolvesOnlyAddresses(r: Request, legacy: bool, context: string)
    requires r.clusters != []
    ensures Resolve(Generate(r, legacy), context).Some? <==>
            exists e <- r.clusters :: context == EntryName(AuthName(r.namespace, r.shootName), e.name)
    ensures Resolve(Generate(r, legacy), Generate(r, legacy).currentContext).Some?
    ensures Resolve(Generate(r, legacy), Generate(r, legacy).currentContext).value.cluster.server
            == "https://" + r.clusters[0].apiServerHost
  {
    var config := Generate(r, legacy);
    var authName := AuthName(r.namespace, r.shootName);
    ResolvesToAddress(r, legacy, 0);
    if e :| e in r.clusters && context == EntryName(authName, e.name) {
      var k :| 0 <= k < |r.clusters| && r.clusters[k] == e;
      var i := FirstIndexOf(r, k);
      ResolvesToAddress(r, legacy, i);
    } else {
      forall c <- config.contexts ensures c.name != context {
        var i :| 0 <= i < |config.contexts| && config.contexts[i] == c;
        assert r.clusters[i] in r.clusters;
      }
      LookupMissing(config.contexts, context);
    }
  }

  lemma {:induction false} FirstIndexOf(r: Request, k: nat) returns (i: nat)
    requires k < |r.clusters|
    ensures i <= k && r.clusters[i].name == r.clusters[k].name && FirstOfItsName(r, i)
  {
    if FirstOfItsName(r, k) {
      i := k;
    } else {
      var j :| 0 <= j < k && r.clusters[j].name == r.clusters[k].name;
      i := FirstIndexOf(r, j);
    }
  }

  // The two layouts carry the same reference

  /** The value of the first argument that sets a flag. */
  function FlagValue(args: seq<string>, flag: string): Option<string> {
    if args == [] then None
    else if flag <= args[0] then Some(args[0][|flag|..])
    else FlagValue(args[1..], flag)
  }

  /** What the plugin reads from its command line. */
  function DecodeArgs(args: seq<string>): Option<ExecPluginConfig> {
    match (FlagValue(args, "--namespace="), FlagValue(args, "--name="), FlagValue(args, "--garden-cluster-identity="))
    case (Some(namespace), Some(name), Some(identity)) => Some(ExecPluginConfig(ShootRef(namespace, name), identity))
    case (_, _, _) => None
  }

  /** What the plugin learns in a context: from the cluster extension of its name, which kubectl hands over only if it
      is asked to provide cluster information, or else from its command line. */
  function Decode(config: Config, context: string): Option<ExecPluginConfig> {
    match Resolve(config, context)
    case None => None
    case Some(access) =>
      var extension := Lookup(access.cluster.extensions, "client.authentication.k8s.io/exec");
      if access.exec.provideClusterInfo && extension.Some? then extension else DecodeArgs(access.exec.args)
  }

  lemma DecodeLegacyArgs(r: Request)
    ensures DecodeArgs(UserOf(r, true).value.args) == Some(PluginConfig(r))
    ensures DecodeArgs(UserOf(r, false).value.args) == None
  {
    var args := UserOf(r, true).value.args;
    var flags := args[2..];
    assert args[1..][1..] == flags;
    assert args[0][0] == 'g' && args[1][0] == 'g';
    assert forall flag | flag in {NAME_FLAG, NAMESPACE_FLAG, IDENTITY_FLAG} :: flag[0] == '-';
    assert flags == LegacyArgs(r);
    assert flags[0][6] == '=' && NAMESPACE_FLAG[6] == 's';
    assert flags[0][2] == 'n' && flags[1][2] == 'n' && IDENTITY_FLAG[2] == 'g';
    FlagSkips(args, NAME_FLAG);
    FlagSkips(args[1..], NAME_FLAG);
    FlagSkips(args, NAMESPACE_FLAG);
    FlagSkips(args[1..], NAMESPACE_FLAG);
    FlagSkips(flags, NAMESPACE_FLAG);
    FlagSkips(args, IDENTITY_FLAG);
    FlagSkips(args[1..], IDENTITY_FLAG);
    FlagSkips(flags, IDENTITY_FLAG);
    FlagSkips(flags[1..], IDENTITY_FLAG);
    assert flags[1..][1..] == flags[2..];
    assert FlagValue(flags, NAME_FLAG) == Some(r.shootName);
    assert FlagValue(flags[1..], NAMESPACE_FLAG) == Some(r.namespace);
    assert FlagValue(flags[2..], IDENTITY_FLAG) == Some(r.gardenClusterIdentity);
    var modern := UserOf(r, false).value.args;
    assert modern[0][0] == 'g' && modern[1][0] == 'g';
    FlagSkips(modern, NAMESPACE_FLAG);
    FlagSkips(modern[1..], NAMESPACE_FLAG);
  }

  lemma FlagSkips(args: seq<string>, flag: string)
    requires args != [] && !(flag <= args[0])
    ensures FlagValue(args, flag) == FlagValue(args[1..], flag)
  {
  }

  /** In either layout, every context of every request tells the plugin the request's own shoot and garden. */
  lemma LayoutsAgree(r: Request, legacy: bool, i: nat)
    requires i < |r.clusters|
    ensures Decode(Generate(r, legacy), EntryName(AuthName(r.namespace, r.shootName), r.clusters[i].name))
            == Some(ExecPluginConfig(ShootRef(r.namespace, r.shootName), r.gardenClusterIdentity))
  {
    var first := FirstIndexOf(r, i);
    ResolvesToAddress(r, legacy, first);
    DecodeLegacyArgs(r);
    if !legacy {
      LookupFirst(ExtensionsOf(r, false), 0);
    }
  }

  /** A kubeconfig without what distinguishes the layouts: user arguments and cluster extensions. */
  function Stripped(config: Config): Config {
    config.(
    clusters := seq(|config.clusters|, i requires 0 <= i < |config.clusters| =>
      config.clusters[i].(value := config.clusters[i].value.(extensions := []))),
    users := seq(|config.users|, i requires 0 <= i < |config.users| =>
      config.users[i].(value := config.users[i].value.(args := []))))
  }

  lemma LayoutsDifferOnlyInReference(r: Request)
    requires r.clusters != []
    ensures Stripped(Generate(r, true)) == Stripped(Generate(r, false))
    ensures Generate(r, true) != Generate(r, false)
  {
    var legacy, modern := Stripped(Generate(r, true)), Stripped(Generate(r, false));
    assert legacy.clusters == modern.clusters;
    assert legacy.users == modern.users;
    assert |Generate(r, true).users[0].value.args| == 5 && |Generate(r, false).users[0].value.args| == 2;
  }

  // Names of entries parse back

  predicate NoDoubleHyphen(s: string) {
    forall i | 0 <= i < |s| - 1 :: !(s[i] == '-' && s[i+1] == '-')
  }

  predicate EndsWithHyphen(s: string) {
    s != "" && s[|s|-1] == '-'
  }

  /** A namespace that cannot be mistaken for a namespace and the beginning of a shoot name. */
  predicate PlainNamespace(s: string) {
    NoDoubleHyphen(s) && !EndsWithHyphen(s)
  }

  predicate DoubleHyphenAt(s: string, i: nat) {
    i + 1 < |s| && s[i] == '-' && s[i+1] == '-'
  }

  /** The separator of a user name is its first double hyphen. */
  lemma SeparatorIsFirst(namespace: string, shootName: string)
    requires PlainNamespace(namespace)
    ensures DoubleHyphenAt(AuthName(namespace, shootName), |namespace|)
    ensures forall i: nat | i < |namespace| :: !DoubleHyphenAt(AuthName(namespace, shootName), i)
  {
    var s := AuthName(namespace, shootName);
    forall i: nat | i < |namespace| ensures !DoubleHyphenAt(s, i) {
      assert s[i] == namespace[i];
      assert i + 1 < |namespace| ==> s[i+1] == namespace[i+1];
    }
  }

  /** Two shoots with the same user name are the same shoot, whatever the shoot names. */
  lemma AuthNameInjective(ns1: string, shoot1: string, ns2: string, shoot2: string)
    requires PlainNamespace(ns1) && PlainNamespace(ns2)
    requires AuthName(ns1, shoot1) == AuthName(ns2, shoot2)
    ensures ns1 == ns2 && shoot1 == shoot2
  {
    SeparatorIsFirst(ns1, shoot1);
    SeparatorIsFirst(ns2, shoot2);
    var s, t := AuthName(ns1, shoot1), AuthName(ns2, shoot2);
    assert |ns1| == |ns2|;
    assert s[..|ns1|] == ns1 && t[..|ns1|] == ns2;
    assert s[|ns1|+2..] == shoot1 && t[|ns1|+2..] == shoot2;
  }

  predicate HyphenAt(s: string, i: nat) {
    i < |s| && s[i] == '-'
  }

  lemma SeparatorIsLast(authName: string, address: string)
    requires '-' !in address
    ensures HyphenAt(EntryName(authName, address), |authName|)
    ensures forall i: nat | i > |authName| :: !HyphenAt(EntryName(authName, address), i)
  {
    var s := EntryName(authName, address);
    forall i: nat | |authName| < i < |s| ensures !HyphenAt(s, i) {
      assert s[i] == address[i - |authName| - 1];
    }
  }

  /** The name of a cluster or context determines the namespace, the shoot and the address. */
  lemma EntryNameParsesBack(ns1: string, shoot1: string, a1: string, ns2: string, shoot2: string, a2: string)
    requires PlainNamespace(ns1) && PlainNamespace(ns2)
    requires '-' !in a1 && '-' !in a2
    requires EntryName(AuthName(ns1, shoot1), a1) == EntryName(AuthName(ns2, shoot2), a2)
    ensures ns1 == ns2 && shoot1 == shoot2 && a1 == a2
  {
    var auth1, auth2 := AuthName(ns1, shoot1), AuthName(ns2, shoot2);
    SeparatorIsLast(auth1, a1);
    SeparatorIsLast(auth2, a2);
    assert |auth1| == |auth2|;
    assert EntryName(auth1, a1)[..|auth1|] == auth1;
    assert EntryName(auth2, a2)[..|auth1|] == auth2;
    EntryNameInjective(auth1, a1, a2);
    AuthNameInjective(ns1, shoot1, ns2, shoot2);
  }

  // Where the conditions fail, another name is the same

  lemma {:induction false} FirstDoubleHyphen(s: string, bound: nat) returns (i: nat)
    requires DoubleHyphenAt(s, bound)
    ensures i <= bound && DoubleHyphenAt(s, i)
    ensures forall j: nat | j < i :: !DoubleHyphenAt(s, j)
  {
    if j: nat :| j < bound && DoubleHyphenAt(s, j) {
      i := FirstDoubleHyphen(s, j);
    } else {
      i := bound;
    }
  }

  lemma {:induction false} LastHyphen(s: string, bound: nat) returns (i: nat)
    requires HyphenAt(s, bound)
    ensures i >= bound && HyphenAt(s, i)
    ensures forall j: nat | j > i :: !HyphenAt(s, j)
    decreases |s| - bound
  {
    if j: nat :| j > bound && HyphenAt(s, j) {
      i := LastHyphen(s, j);
    } else {
      i := bound;
    }
  }

  lemma PrefixIsPlain(s: string, i: nat)
    requires DoubleHyphenAt(s, i)
    requires forall j: nat | j < i :: !DoubleHyphenAt(s, j)
    ensures PlainNamespace(s[..i])
  {
    forall j | 0 <= j < i - 1 ensures !(s[..i][j] == '-' && s[..i][j+1] == '-') {
      assert !DoubleHyphenAt(s, j);
    }
    if EndsWithHyphen(s[..i]) {
      assert DoubleHyphenAt(s, i - 1);
    }
  }

  /** A user name determines its namespace and shoot among all plain ones exactly when its namespace is plain itself:
      otherwise the text before its first double hyphen is the plain namespace of another shoot. */
  lemma AuthNameParsesBackExactly(namespace: string, shootName: string)
    ensures
      PlainNamespace(namespace) <==>
      forall ns, shoot | PlainNamespace(ns) && AuthName(ns, shoot) == AuthName(namespace, shootName) ::
        ns == namespace && shoot == shootName
  {
    if PlainNamespace(namespace) {
      forall ns, shoot | PlainNamespace(ns) && AuthName(ns, shoot) == AuthName(namespace, shootName)
        ensures ns == namespace && shoot == shootName
      {
        AuthNameInjective(ns, shoot, namespace, shootName);
      }
    } else {
      var s := AuthName(namespace, shootName);
      var i := FirstDoubleHyphen(s, |namespace|);
      PrefixIsPlain(s, i);
      assert AuthName(s[..i], s[i+2..]) == s;
    }
  }

  /** An entry name determines its namespace, shoot and address among the plain ones exactly when it is made of a plain
      namespace and an address without hyphens. */
  lemma EntryNameParsesBackExactly(namespace: string, shootName: string, address: string)
    ensures
      PlainNamespace(namespace) && '-' !in address <==>
      forall ns, shoot, a
        | PlainNamespace(ns) && '-' !in a
          && EntryName(AuthName(ns, shoot), a) == EntryName(AuthName(namespace, shootName), address) ::
        ns == namespace && shoot == shootName && a == address
  {
    if PlainNamespace(namespace) && '-' !in address {
      forall ns, shoot, a
        | PlainNamespace(ns) && '-' !in a
          && EntryName(AuthName(ns, shoot), a) == EntryName(AuthName(namespace, shootName), address)
        ensures ns == namespace && shoot == shootName && a == address
      {
        EntryNameParsesBack(ns, shoot, a, namespace, shootName, address);
      }
    } else {
      var auth := AuthName(namespace, shootName);
      var s := EntryName(auth, address);
      var i := FirstDoubleHyphen(s, |namespace|);
      var h := LastHyphen(s, |auth|);
      PrefixIsPlain(s, i);
      forall j | h < j < |s| ensures s[j] != '-' {
        assert !HyphenAt(s, j);
      }
      assert '-' !in s[h+1..];
      assert EntryName(AuthName(s[..i], s[i+2..h]), s[h+1..]) == s;
    }
  }
}
