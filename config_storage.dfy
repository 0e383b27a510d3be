/** `StorageConfig.Validate` of config/storage.go: the URL and database name are
    trimmed in place, then an empty URL is refused whatever the storage type. */
module ConfigStorage {
  import opened Base
  import opened ConfigCommon

  const UrlError := InvalidConfigurationParameter("URL", "MongoDB driver expects a valid url")

  /** The check that follows the trimming. The mongo branch and the default
      branch carry the same test and the same error. */
  function StorageCheck(storageType: int, url: string): (err: Option<ConfigError>)
    ensures err.Some? <==> url == []
    ensures err.Some? ==> err.value == UrlError
  {
    if storageType == 1 then
      if url == "" then Some(UrlError) else None
    else
      if url == "" then Some(UrlError) else None
  }

  class StorageConfig {
    var storageType: int
    var url: string
    var db: string

    constructor (storageType: int, url: string, db: string)
      ensures this.storageType == storageType && this.url == url && this.db == db
    {
      this.storageType := storageType;
      this.url := url;
      this.db := db;
    }

    method Validate() returns (err: Option<ConfigError>)
      modifies this
      ensures url == TrimSpace(old(url)) && db == TrimSpace(old(db))
      ensures storageType == old(storageType)
      ensures err == StorageCheck(storageType, url)
    {
      url := TrimSpace(url);
      db := TrimSpace(db);
      if storageType == 1 {
        if url == "" {
          return Some(UrlError);
        }
      } else {
        if url == "" {
          return Some(UrlError);
        }
      }
      return None;
    }
  }

  /** A URL of white space only is refused, for every storage type. */
  lemma BlankUrlRejected(storageType: int, url: string)
    requires AllSpace(url)
    ensures StorageCheck(storageType, TrimSpace(url)) == Some(UrlError)
  {
    TrimSpaceEmptyIff(url);
  }

  /** A URL with any other character is accepted, whatever the database name. */
  lemma UrlDecides(storageType: int, url: string)
    requires !AllSpace(url)
    ensures StorageCheck(storageType, TrimSpace(url)) == None
  {
    TrimSpaceEmptyIff(url);
  }

  /** Validating an already validated configuration changes nothing and gives
      the same answer. */
  lemma ValidateIdempotent(storageType: int, url: string, db: string)
    ensures TrimSpace(TrimSpace(url)) == TrimSpace(url)
    ensures TrimSpace(TrimSpace(db)) == TrimSpace(db)
    ensures StorageCheck(storageType, TrimSpace(TrimSpace(url))) == StorageCheck(storageType, TrimSpace(url))
  {
    TrimSpaceIdempotent(url);
    TrimSpaceIdempotent(db);
  }
}
