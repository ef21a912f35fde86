// The controller manager configuration: defaults, overwritten in place by a file, then validated.
module Configuration {
  import opened Objects

  datatype Settings = Settings(
    maxConcurrentReconciles: int,
    maxConcurrentReconcilesPerNamespace: int,
    quotaExceededRetryDelayHours: int,
    maxObjectSize: int)

  /** A configuration file: not decodable, or the fields it sets. */
  datatype ConfigFile =
    | Undecodable
    | Decoded(
        maxConcurrentReconciles: Option<int>,
        maxConcurrentReconcilesPerNamespace: Option<int>,
        quotaExceededRetryDelayHours: Option<int>,
        maxObjectSize: Option<int>)

  const DEFAULTS := Settings(50, 3, 24, 100 * 1024)

  function Or(override: Option<int>, value: int): int {
    if override.Some? then override.value else value
  }

  /** A configuration, with what a file sets put in its place. */
  function Merged(s: Settings, file: ConfigFile): Settings
    requires file.Decoded?
  {
    Settings(Or(file.maxConcurrentReconciles, s.maxConcurrentReconciles),
             Or(file.maxConcurrentReconcilesPerNamespace, s.maxConcurrentReconcilesPerNamespace),
             Or(file.quotaExceededRetryDelayHours, s.quotaExceededRetryDelayHours),
             Or(file.maxObjectSize, s.maxObjectSize))
  }

  /** The defaults, overwritten by the file if there is one; nothing if it cannot be decoded. */
  function Effective(file: Option<ConfigFile>): Option<Settings> {
    match file
    case None => Some(DEFAULTS)
    case Some(Undecodable) => None
    case Some(f) => Some(Merged(DEFAULTS, f))
  }

  /** What validation guarantees. It puts no lower bound on the limit per namespace. */
  predicate Accepted(s: Settings) {
    s.maxConcurrentReconciles >= 1 && s.maxConcurrentReconcilesPerNamespace <= s.maxConcurrentReconciles
  }

  class ControllerManagerConfiguration {
    var maxConcurrentReconciles: int
    var maxConcurrentReconcilesPerNamespace: int
    var quotaExceededRetryDelayHours: int
    var maxObjectSize: int

    function Values(): Settings
      reads this
    {
      Settings(maxConcurrentReconciles, maxConcurrentReconcilesPerNamespace,
               quotaExceededRetryDelayHours, maxObjectSize)
    }

    constructor ()
      ensures Values() == DEFAULTS
      ensures maxConcurrentReconciles == 50 && maxConcurrentReconcilesPerNamespace == 3
      ensures quotaExceededRetryDelayHours == 24 && maxObjectSize == 100 * 1024
    {
      maxConcurrentReconciles := 50;
      maxConcurrentReconcilesPerNamespace := 3;
      quotaExceededRetryDelayHours := 24;
      maxObjectSize := 100 * 1024;
    }

    method ReadFile(file: ConfigFile) returns (ok: bool)
      modifies this
      ensures ok <==> file.Decoded?
      ensures ok ==> Values() == Merged(old(Values()), file)
      ensures ok ==>
                && maxConcurrentReconciles == file.maxConcurrentReconciles.GetOr(old(maxConcurrentReconciles))
                && maxConcurrentReconcilesPerNamespace
                   == file.maxConcurrentReconcilesPerNamespace.GetOr(old(maxConcurrentReconcilesPerNamespace))
                && quotaExceededRetryDelayHours
                   == file.quotaExceededRetryDelayHours.GetOr(old(quotaExceededRetryDelayHours))
                && maxObjectSize == file.maxObjectSize.GetOr(old(maxObjectSize))
    {
      if file.Undecodable? {
        return false;
      }
      if file.maxConcurrentReconciles.Some? {
        maxConcurrentReconciles := file.maxConcurrentReconciles.value;
      }
      if file.maxConcurrentReconcilesPerNamespace.Some? {
        maxConcurrentReconcilesPerNamespace := file.maxConcurrentReconcilesPerNamespace.value;
      }
      if file.quotaExceededRetryDelayHours.Some? {
        quotaExceededRetryDelayHours := file.quotaExceededRetryDelayHours.value;
      }
      if file.maxObjectSize.Some? {
        maxObjectSize := file.maxObjectSize.value;
      }
      return true;
    }

    method Validate() returns (ok: bool)
      ensures ok <==> Accepted(Values())
      ensures ok <==> 1 <= maxConcurrentReconciles && maxConcurrentReconcilesPerNamespace <= maxConcurrentReconciles
    {
      if maxConcurrentReconciles < 1 {
        return false;
      }
      if maxConcurrentReconcilesPerNamespace > maxConcurrentReconciles {
        return false;
      }
      return true;
    }
  }

  /** A configuration is returned exactly when the file decodes and the merged values are accepted. */
  method ReadControllerManagerConfiguration(file: Option<ConfigFile>) returns (config: ControllerManagerConfiguration?)
    ensures config != null <==> Effective(file).Some? && Accepted(Effective(file).value)
    ensures config != null ==> fresh(config) && config.Values() == Effective(file).value
    ensures config != null && file.None? ==>
              && config.maxConcurrentReconciles == 50 && config.maxConcurrentReconcilesPerNamespace == 3
              && config.quotaExceededRetryDelayHours == 24 && config.maxObjectSize == 100 * 1024
    ensures config != null && file.Some? ==>
              && file.value.Decoded?
              && config.maxConcurrentReconciles == file.value.maxConcurrentReconciles.GetOr(50)
              && config.maxConcurrentReconcilesPerNamespace == file.value.maxConcurrentReconcilesPerNamespace.GetOr(3)
              && config.quotaExceededRetryDelayHours == file.value.quotaExceededRetryDelayHours.GetOr(24)
              && config.maxObjectSize == file.value.maxObjectSize.GetOr(100 * 1024)
  {
    var cfg := new ControllerManagerConfiguration();
    if file.Some? {
      var decoded := cfg.ReadFile(file.value);
      if !decoded {
        return null;
      }
    }
    var valid := cfg.Validate();
    if !valid {
      return null;
    }
    return cfg;
  }
}
