// The requests that a quota event turns into: the shoots of the namespace without a kubeconfig
// ConfigMap.
module QuotaWatch {
  import opened Objects
  import opened Rendering
  import opened Handling

  /** A listed shoot needs a reconcile when no listed ConfigMap carries its name. */
  predicate NeedsReconcile(shoot: Key, configMaps: seq<Key>) {
    forall c <- configMaps :: c.name != shoot.name + KUBECONFIG_SUFFIX
  }

  /** The listed shoots that need a reconcile, in order. */
  function Requests(shoots: seq<Key>, configMaps: seq<Key>): seq<Key> {
    if shoots == [] then []
    else (if NeedsReconcile(shoots[0], configMaps) then [shoots[0]] else []) + Requests(shoots[1..], configMaps)
  }

  predicate Distinct(s: seq<Key>) {
    forall i, j | 0 <= i < j < |s| :: s[i] != s[j]
  }

  lemma {:induction false} RequestsOfPrefix(shoots: seq<Key>, configMaps: seq<Key>, i: nat)
    requires i < |shoots|
    ensures Requests(shoots[..i+1], configMaps)
            == Requests(shoots[..i], configMaps) + (if NeedsReconcile(shoots[i], configMaps) then [shoots[i]] else [])
  {
    if i == 0 {
      assert shoots[..1] == [shoots[0]] && shoots[..0] == [];
    } else {
      RequestsOfPrefix(shoots[1..], configMaps, i - 1);
      assert shoots[..i+1][1..] == shoots[1..][..i];
      assert shoots[..i][1..] == shoots[1..][..i-1];
    }
  }

  /** Exactly the shoots without a listed ConfigMap are requested, and none twice. */
  lemma {:induction false} RequestsExactly(shoots: seq<Key>, configMaps: seq<Key>)
    ensures forall k :: k in Requests(shoots, configMaps) <==>
                        k in shoots && forall c <- configMaps :: c.name != k.name + ".kubeconfig"
    ensures Distinct(shoots) ==> Distinct(Requests(shoots, configMaps))
  {
    if shoots == [] {
    } else {
      RequestsExactly(shoots[1..], configMaps);
      assert shoots == [shoots[0]] + shoots[1..];
      var r, rest := Requests(shoots, configMaps), Requests(shoots[1..], configMaps);
      if Distinct(shoots) {
        assert shoots[0] !in shoots[1..];
        assert Distinct(shoots[1..]);
        assert NeedsReconcile(shoots[0], configMaps) ==> r == [shoots[0]] + rest;
      }
    }
  }

  method MapQuotaEvent(shoots: seq<Key>, configMaps: seq<Key>) returns (requests: seq<Key>)
    ensures requests == Requests(shoots, configMaps)
    ensures forall k :: k in requests <==> k in shoots && forall c <- configMaps :: c.name != k.name + ".kubeconfig"
  {
    RequestsExactly(shoots, configMaps);
    requests := [];
    var i := 0;
    while i < |shoots|
      invariant 0 <= i <= |shoots|
      invariant requests == Requests(shoots[..i], configMaps)
    {
      var needsReconcile := true;
      var j := 0;
      while j < |configMaps|
        invariant 0 <= j <= |configMaps|
        invariant needsReconcile ==> forall c <- configMaps[..j] :: c.name != shoots[i].name + KUBECONFIG_SUFFIX
        invariant !needsReconcile ==> !NeedsReconcile(shoots[i], configMaps)
      {
        var name := shoots[i].name + KUBECONFIG_SUFFIX;
        if configMaps[j].name == name {
          assert configMaps[j] in configMaps;
          needsReconcile := false;
          break;
        }
        j := j + 1;
      }
      assert needsReconcile ==> configMaps[..j] == configMaps;
      RequestsOfPrefix(shoots, configMaps, i);
      if needsReconcile {
        requests := requests + [shoots[i]];
      }
      i := i + 1;
    }
    assert shoots[..i] == shoots;
  }

  /** The shoots that a quota event of a namespace wakes up. */
  function Awakened(g: Garden, namespace: string): set<Key> {
    set k | k in g.shoots && k.namespace == namespace
            && !(ConfigMapKey(k) in g.configMaps && HasRole(g.configMaps[ConfigMapKey(k)]))
  }

  /** The lists the event handler works on: the shoots of a namespace, and its ConfigMaps with the kubeconfig role. */
  ghost predicate AreListed(g: Garden, namespace: string, shoots: seq<Key>, configMaps: seq<Key>) {
    && (forall k :: k in shoots <==> k in g.shoots && k.namespace == namespace)
    && (forall c :: c in configMaps <==> c in g.configMaps && c.namespace == namespace && HasRole(g.configMaps[c]))
  }

  /** These are the shoots of the namespace without a ConfigMap of their name and role. */
  lemma AwakenedExactly(g: Garden, namespace: string, k: Key)
    ensures k in Awakened(g, namespace) <==>
            && k in g.shoots && k.namespace == namespace
            && forall c | c in g.configMaps && c.namespace == namespace && c.name == k.name + ".kubeconfig" ::
                 Find(g.configMaps[c].labels, "operations.gardener.cloud/role") != Some("kubeconfig")
  {
    if k.namespace == namespace {
      assert ConfigMapKey(k) == Key(namespace, k.name + ".kubeconfig");
    }
  }

  /** Whatever the order of the lists, the handler requests exactly the awakened shoots. */
  lemma RequestsAreAwakened(g: Garden, namespace: string, shoots: seq<Key>, configMaps: seq<Key>)
    requires AreListed(g, namespace, shoots, configMaps)
    ensures forall k :: k in Requests(shoots, configMaps) <==> k in Awakened(g, namespace)
  {
    RequestsExactly(shoots, configMaps);
    forall k | k in shoots
      ensures NeedsReconcile(k, configMaps) <==>
              !(ConfigMapKey(k) in g.configMaps && HasRole(g.configMaps[ConfigMapKey(k)]))
    {
      if ConfigMapKey(k) in configMaps {
        assert !NeedsReconcile(k, configMaps);
      }
      if c :| c in configMaps && c.name == k.name + KUBECONFIG_SUFFIX {
        assert c == ConfigMapKey(k);
      }
    }
  }
}
