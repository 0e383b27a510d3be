/** The no-op backend of storage/empty.go: it holds nothing, accepts every call
    and reports the zero options. */
module StorageEmpty {
  import opened Base
  import opened StorageOptions
  import MicroStore
  import StorageMongo

  function Init(opts: seq<MicroStore.StoreOption>): Option<Error>
  {
    None
  }

  function List(ctx: StorageMongo.Context, opts: seq<ReadOption>): Option<Error>
  {
    None
  }

  function Read(ctx: StorageMongo.Context, opts: seq<ReadOption>): Option<Error>
  {
    None
  }

  function Write<P>(ctx: StorageMongo.Context, payload: P, opts: seq<WriteOption>): Option<Error>
  {
    None
  }

  function Update<P>(ctx: StorageMongo.Context, payload: P, opts: seq<WriteOption>): Option<Error>
  {
    None
  }

  function Delete(ctx: StorageMongo.Context, opts: seq<DeleteOption>): Option<Error>
  {
    None
  }

  function Options(): MicroStore.StoreOptions
  {
    MicroStore.StoreOptions([], "", "")
  }

  function Name(): string
  {
    "empty"
  }

  /** Every operation succeeds for every input, Init included whatever its
      options; the options reported are the zero value and the name is "empty". */
  lemma AcceptsEverything<P>(ctx: StorageMongo.Context, ro: seq<ReadOption>, wo: seq<WriteOption>, dop: seq<DeleteOption>,
                             so: seq<MicroStore.StoreOption>, payload: P)
    ensures Init(so) == None
    ensures List(ctx, ro) == None && Read(ctx, ro) == None
    ensures Write(ctx, payload, wo) == None && Update(ctx, payload, wo) == None
    ensures Delete(ctx, dop) == None
    ensures Options() == MicroStore.ZeroStoreOptions && Name() == "empty"
  {
  }

  /** Without a `Result`, the empty backend's Read and List succeed where the
      mongo backend refuses them (List once its find has gone through). */
  lemma AcceptsMissingResultUnlikeMongo(ctx: StorageMongo.Context, opts: seq<ReadOption>, tables: StorageMongo.Tables,
                                        fault: Option<Error>, all: Option<Error>, close: Option<Error>)
    requires FoldRead(opts).result.None?
    requires ToInt64(FoldRead(opts).offset) >= 0
    ensures Read(ctx, opts) == None && List(ctx, opts) == None
    ensures StorageMongo.ReadOutcome(tables, FoldRead(opts), fault) == (Some(InvalidResultOption), None)
    ensures StorageMongo.ListOutcome(tables, FoldRead(opts), StorageMongo.ListFaults(None, all, close)) == (Some(InvalidResultOption), None)
  {
  }
}
