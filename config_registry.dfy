/** `RegistryConfig.Validate` of config/registry.go. */
module ConfigRegistry {
  import opened Base
  import opened ConfigCommon

  datatype RegistryConfig = RegistryConfig(addresses: seq<string>, cacheTTL: int, registryType: int)

  const AddressesError := InvalidConfigurationParameter("Addresses", "Length should be greater than zero")

  /** Kubernetes (type 1) needs no address; every other type, the zero value
      included, needs at least one. */
  function Validate(c: RegistryConfig): (err: Option<ConfigError>)
    ensures err.Some? <==> c.registryType != 1 && |c.addresses| == 0
    ensures err.Some? ==> err.value == AddressesError
  {
    if c.registryType == 1 then None
    else if |c.addresses| <= 0 then Some(AddressesError)
    else None
  }

  /** The cache interval plays no part. */
  lemma ValidateIgnoresCacheTTL(c: RegistryConfig, ttl: int)
    ensures Validate(c.(cacheTTL := ttl)) == Validate(c)
  {
  }
}
