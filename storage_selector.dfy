/** `NewStorage` of storage/storage.go: the storage type picks the backend, which
    is then initialised with the configured database and a single node; an
    initialisation failure ends the process, so no store is returned. */
module StorageSelector {
  import opened Base
  import MicroStore
  import StorageMongo
  import StorageEmpty
  import ConfigStorage

  datatype Backend = MongoBackend(store: StorageMongo.MongoStore) | EmptyBackend

  /** The adapter name a backend reports through `String()`; it tells the
      backends apart. */
  function BackendName(b: Backend): (r: string)
    ensures b.MongoBackend? <==> r == "mongodb"
    ensures b.EmptyBackend? <==> r == "empty"
  {
    match b
    case MongoBackend(m) => m.Name()
    case EmptyBackend => StorageEmpty.Name()
  }

  /** The options `NewStorage` passes to Init, in order. */
  function InitOptions(db: string, url: string): seq<MicroStore.StoreOption>
  {
    [MicroStore.Database(db), MicroStore.Nodes([url])]
  }

  /** Init on a fresh backend holds the configured database and exactly one node, the URL. */
  lemma InitOptionsFold(db: string, url: string)
    ensures MicroStore.FoldStoreOptions(MicroStore.ZeroStoreOptions, InitOptions(db, url)) == MicroStore.StoreOptions([url], db, "")
  {
    var opts := InitOptions(db, url);
    assert opts[..1] == [MicroStore.Database(db)] && opts[..1][..0] == [];
    assert MicroStore.FoldStoreOptions(MicroStore.ZeroStoreOptions, opts[..1][..0]) == MicroStore.ZeroStoreOptions;
    var one := MicroStore.FoldStoreOptions(MicroStore.ZeroStoreOptions, opts[..1]);
    assert one == MicroStore.StoreOptions([], db, "");
  }

  /** `server` is the database mgm connects to; `configureFault` is the failure, if
      any, of configuring that connection. */
  method NewStorage(config: ConfigStorage.StorageConfig, server: StorageMongo.Server, configureFault: Option<Error>)
    returns (s: Option<Backend>)
    ensures config.storageType != 1 ==> s == Some(EmptyBackend)
    ensures s.Some? ==> BackendName(s.value) == (if config.storageType == 1 then "mongodb" else "empty")
    ensures config.storageType == 1 && configureFault.Some? ==> s == None
    ensures config.storageType == 1 && configureFault.None? ==>
      && s.Some? && s.value.MongoBackend? && fresh(s.value.store)
      && s.value.store.server == server
      && s.value.store.options == MicroStore.StoreOptions([config.url], config.db, "")
      && s.value.store.connection == Some(StorageMongo.Connection(config.db, config.url, StorageMongo.OperationTimeout))
  {
    if config.storageType == 1 {
      var m := new StorageMongo.MongoStore(server);
      InitOptionsFold(config.db, config.url);
      var err := m.Init(InitOptions(config.db, config.url), configureFault);
      if err.Some? {
        return None;
      }
      return Some(MongoBackend(m));
    }
    var err := StorageEmpty.Init(InitOptions(config.db, config.url));
    if err.Some? {
      return None;
    }
    return Some(EmptyBackend);
  }
}
