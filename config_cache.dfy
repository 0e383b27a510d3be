/** `CacheConfig.Validate` of config/cache.go: only a Redis cache (type 2) needs an address. */
module ConfigCache {
  import opened Base
  import opened ConfigCommon

  datatype CacheConfig = CacheConfig(cacheType: int, size: int, address: string, username: string, password: string, database: int)

  const AddressError := InvalidConfigurationParameter("Address", "Redis cache must have a valid address")

  /** The address is compared with "" as given: it is not trimmed, so white
      space counts as an address. */
  function Validate(c: CacheConfig): (err: Option<ConfigError>)
    ensures err.Some? <==> c.cacheType == 2 && c.address == []
    ensures err.Some? ==> err.value == AddressError
  {
    if c.cacheType == 2 then
      if c.address == "" then Some(AddressError) else None
    else None
  }

  /** Size, credentials and database number play no part. */
  lemma ValidateIgnoresOtherFields(c: CacheConfig, size: int, username: string, password: string, database: int)
    ensures Validate(c.(size := size, username := username, password := password, database := database)) == Validate(c)
  {
  }

  /** A Redis address of white space only is accepted. */
  lemma BlankAddressAccepted(c: CacheConfig)
    requires c.cacheType == 2 && c.address != [] && AllSpace(c.address)
    ensures Validate(c) == None
  {
  }
}
