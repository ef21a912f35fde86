// The reconciler as it runs in one worker: its configuration, its counters and the objects it
// reads and writes, all updated in place.
module Reconciler {
  import opened Objects
  import opened Configuration
  import opened Limiter
  import opened Quota
  import opened Rendering
  import opened Handling
  import Kubeconfig

  class ShootReconciler {
    const platform: Platform
    var config: ControllerManagerConfiguration
    var reconcilerCountPerNamespace: map<string, int>
    var garden: Garden

    constructor (platform: Platform, config: ControllerManagerConfiguration, garden: Garden)
      ensures this.platform == platform && this.config == config && this.garden == garden
      ensures reconcilerCountPerNamespace == map[]
    {
      this.platform, this.config, this.garden := platform, config, garden;
      reconcilerCountPerNamespace := map[];
    }

    method InjectConfig(config: ControllerManagerConfiguration)
      modifies this`config
      ensures this.config == config
    {
      this.config := config;
    }

    method IncreaseCounterForNamespace(namespace: string) returns (ok: bool)
      modifies this`reconcilerCountPerNamespace
      ensures ok <==> CountOf(old(reconcilerCountPerNamespace), namespace) < config.maxConcurrentReconcilesPerNamespace
      ensures reconcilerCountPerNamespace ==
              if ok then Increased(old(reconcilerCountPerNamespace), namespace) else old(reconcilerCountPerNamespace)
    {
      var counter;
      if namespace !in reconcilerCountPerNamespace {
        counter := 1;
      } else {
        counter := reconcilerCountPerNamespace[namespace] + 1;
      }
      if counter > config.maxConcurrentReconcilesPerNamespace {
        return false;
      }
      reconcilerCountPerNamespace := reconcilerCountPerNamespace[namespace := counter];
      return true;
    }

    // Without an entry the controller panics.
    method DecreaseCounterForNamespace(namespace: string)
      requires namespace in reconcilerCountPerNamespace
      modifies this`reconcilerCountPerNamespace
      ensures reconcilerCountPerNamespace == Decreased(old(reconcilerCountPerNamespace), namespace)
    {
      var counter := reconcilerCountPerNamespace[namespace] - 1;
      if counter == 0 {
        reconcilerCountPerNamespace := reconcilerCountPerNamespace - {namespace};
      } else {
        reconcilerCountPerNamespace := reconcilerCountPerNamespace[namespace := counter];
      }
    }

    /** The clusters of the kubeconfig request, unless an address has no valid URL. */
    method CollectEndpoints(addresses: seq<Address>, caCert: seq<byte>)
      returns (clusters: Option<seq<Kubeconfig.Endpoint>>)
      ensures clusters == EndpointsOf(platform, addresses, caCert)
      ensures clusters.Some? <==> forall a <- addresses :: platform.hostOf(a.url).Some?
      ensures clusters.Some? ==>
                && |clusters.value| == |addresses|
                && forall i | 0 <= i < |addresses| ::
                     && platform.hostOf(addresses[i].url).Some?
                     && clusters.value[i].name == addresses[i].name
                     && clusters.value[i].apiServerHost == platform.hostOf(addresses[i].url).value
                     && clusters.value[i].caCert == caCert
    {
      var collected := [];
      var i := 0;
      while i < |addresses|
        invariant 0 <= i <= |addresses|
        invariant forall j | 0 <= j < i :: platform.hostOf(addresses[j].url).Some?
        invariant |collected| == i
        invariant forall j | 0 <= j < i ::
            collected[j] == Kubeconfig.Endpoint(addresses[j].name, platform.hostOf(addresses[j].url).value, caCert)
      {
        var host := platform.hostOf(addresses[i].url);
        if host.None? {
          assert addresses[i] in addresses;
          return None;
        }
        collected := collected + [Kubeconfig.Endpoint(addresses[i].name, host.value, caCert)];
        i := i + 1;
      }
      assert forall a <- addresses :: platform.hostOf(a.url).Some?;
      assert collected == EndpointsOf(platform, addresses, caCert).value;
      return Some(collected);
    }

    /** Brings the ConfigMap of a shoot in line with the shoot; names is the order in which the quotas are listed. */
    method HandleRequest(k: Key, names: seq<Key>) returns (outcome: Outcome)
      requires forall n <- names :: n in garden.quotas
      modifies this`garden
      ensures (garden, outcome) == Handling.HandleRequest(platform, old(garden), k, names)
    {
      var c := ConfigMapKey(k);
      if k !in garden.shoots {
        garden := garden.(configMaps := garden.configMaps - {c});
        return Success;
      }
      var shoot := garden.shoots[k];
      var configMap := BLANK;
      if c in garden.configMaps {
        configMap := garden.configMaps[c];
      } else {
        var verdict := HasSufficientQuota(QuotasOf(garden, names));
        if verdict == StatusMissing {
          return Failed;
        } else if verdict == Insufficient {
          return QuotaExceeded;
        }
      }
      if k !in garden.states {
        garden := garden.(configMaps := garden.configMaps - {c});
        return Success;
      }
      var state := garden.states[k];
      if |shoot.addresses| == 0 {
        return AwaitingAddresses;
      }
      var ca := ClusterCaCert(state);
      if !ca.Certificate? || !ValidCertificate(platform, ca.bytes) || platform.identity.None? {
        return Failed;
      }
      var collected := CollectEndpoints(shoot.addresses, ca.bytes);
      if collected.None? {
        return Failed;
      }
      var request := RequestOf(k, collected.value, platform.identity.value);
      var error := Kubeconfig.Validate(request);
      if error.Some? {
        return Failed;
      }
      var legacy := platform.legacyVersion(shoot.version);
      if legacy.None? {
        return Failed;
      }
      var rendered := Kubeconfig.GenerateConfig(request, legacy.value);
      var kubeconfig := platform.encode(rendered);
      configMap := Mutate(configMap, k, shoot, kubeconfig);
      garden := garden.(configMaps := garden.configMaps[c := configMap]);
      return Success;
    }

    /** Admission, handling and release. A rejected reconcile has no outcome; every reconcile leaves the counters as it
        found them. */
    method Reconcile(k: Key, names: seq<Key>) returns (result: Option<Outcome>)
      requires Positive(reconcilerCountPerNamespace)
      requires forall n <- names :: n in garden.quotas
      modifies this`reconcilerCountPerNamespace, this`garden
      ensures reconcilerCountPerNamespace == old(reconcilerCountPerNamespace)
      ensures result.None? <==>
              CountOf(reconcilerCountPerNamespace, k.namespace) >= config.maxConcurrentReconcilesPerNamespace
      ensures result.None? ==> garden == old(garden)
      ensures result.Some? ==> (garden, result.value) == Handling.HandleRequest(platform, old(garden), k, names)
    {
      DecreaseUndoesIncrease(reconcilerCountPerNamespace, k.namespace);
      var admitted := IncreaseCounterForNamespace(k.namespace);
      if !admitted {
        return None;
      }
      var outcome := HandleRequest(k, names);
      DecreaseCounterForNamespace(k.namespace);
      return Some(outcome);
    }
  }
}
