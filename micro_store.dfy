/** The part of go-micro's `store` package the adapters rely on, reduced to an
    abstract keyed store: `store.Options` and the `store.Option` setters, the
    records, and an in-memory store whose records are a map keyed on
    (database, table, key). This is the collaborator the in-memory backend
    delegates to; its own behaviour belongs to go-micro. */
module MicroStore {
  import opened Base

  /** `store.Options`, restricted to the fields the adapters set. */
  datatype StoreOptions = StoreOptions(nodes: seq<string>, database: string, table: string)

  const ZeroStoreOptions := StoreOptions([], "", "")

  /** `store.Nodes(...)`, `store.Database(...)`, `store.Table(...)`. */
  datatype StoreOption = Nodes(addresses: seq<string>) | Database(name: string) | Table(name: string)

  function ApplyStoreOption(o: StoreOptions, x: StoreOption): StoreOptions
  {
    match x
    case Nodes(a) => o.(nodes := a)
    case Database(d) => o.(database := d)
    case Table(t) => o.(table := t)
  }

  /** The options held after applying `opts`, in order, to `acc`. */
  function FoldStoreOptions(acc: StoreOptions, opts: seq<StoreOption>): StoreOptions
    decreases |opts|
  {
    if opts == [] then acc
    else ApplyStoreOption(FoldStoreOptions(acc, opts[..|opts| - 1]), opts[|opts| - 1])
  }

  /** `store.Record`: a key and an opaque byte payload. */
  datatype Record = Record(key: string, value: seq<byte>)

  /** Where a record lives inside one store instance. */
  datatype Coordinate = Coordinate(database: string, table: string, key: string)

  /** A stored record together with the expiry settings it was written with. */
  datatype Entry = Entry(record: Record, expiry: int, ttl: int)

  /** The option sets the store's List, Read, Write and Delete receive. */
  datatype ListRequest = ListRequest(database: string, table: string, limit: uint64, offset: uint64, prefix: string, suffix: string)
  datatype ReadRequest = ReadRequest(database: string, table: string, limit: uint64, offset: uint64)
  datatype WriteRequest = WriteRequest(database: string, table: string, expiry: int, ttl: int)
  datatype DeleteRequest = DeleteRequest(database: string, table: string)

  predicate HasSuffix(s: string, suffix: string)
  {
    |suffix| <= |s| && s[|s| - |suffix|..] == suffix
  }

  /** The keys of `req`'s table that carry its prefix and suffix. */
  function Matching(entries: map<Coordinate, Entry>, req: ListRequest): set<string>
  {
    set c | c in entries && c.database == req.database && c.table == req.table
              && req.prefix <= c.key && HasSuffix(c.key, req.suffix) :: c.key
  }

  /** What any listing of `req` may return: distinct matching keys, at most
      `limit` of them when a limit is set, and all of them when neither a limit
      nor an offset is set. The order and the page chosen are the store's. */
  ghost predicate ValidListing(entries: map<Coordinate, Entry>, req: ListRequest, keys: seq<string>)
  {
    && (forall i, j :: 0 <= i < j < |keys| ==> keys[i] != keys[j])
    && (forall i :: 0 <= i < |keys| ==> keys[i] in Matching(entries, req))
    && (req.limit > 0 ==> |keys| <= req.limit)
    && (req.limit == 0 && req.offset == 0 ==> forall k :: k in Matching(entries, req) ==> k in keys)
  }

  /** An exact-key read: the record at the key, or `ErrNotFound`. */
  function ReadRecords(entries: map<Coordinate, Entry>, key: string, req: ReadRequest): Result<seq<Record>>
  {
    var c := Coordinate(req.database, req.table, key);
    if c in entries then Ok([entries[c].record]) else Err(NotFound)
  }

  function WriteRecord(entries: map<Coordinate, Entry>, rec: Record, req: WriteRequest): map<Coordinate, Entry>
  {
    entries[Coordinate(req.database, req.table, rec.key) := Entry(rec, req.expiry, req.ttl)]
  }

  function DeleteRecord(entries: map<Coordinate, Entry>, key: string, req: DeleteRequest): map<Coordinate, Entry>
  {
    entries - {Coordinate(req.database, req.table, key)}
  }

  /** Lists the elements of a finite set once each, in an order of its own choosing
      (like ranging over a Go map). */
  method Enumerate(s: set<string>) returns (all: seq<string>)
    ensures forall i, j :: 0 <= i < j < |all| ==> all[i] != all[j]
    ensures forall k :: k in all <==> k in s
  {
    var rest := s;
    all := [];
    while rest != {}
      invariant rest <= s
      invariant forall i, j :: 0 <= i < j < |all| ==> all[i] != all[j]
      invariant forall k :: k in all <==> k in s && k !in rest
      decreases |rest|
    {
      var k :| k in rest;
      all := all + [k];
      rest := rest - {k};
    }
  }

  /** go-micro's in-memory store (`memory.NewStore()`). */
  class Store {
    var options: StoreOptions
    var entries: map<Coordinate, Entry>

    constructor ()
      ensures options == ZeroStoreOptions && entries == map[]
    {
      options := ZeroStoreOptions;
      entries := map[];
    }

    method Init(opts: seq<StoreOption>) returns (err: Option<Error>)
      modifies this
      ensures options == FoldStoreOptions(old(options), opts)
      ensures entries == old(entries) && err == None
    {
      options := FoldStoreOptions(options, opts);
      err := None;
    }

    /** Lists the matching keys; `fault` is a failure the store reports. */
    method List(req: ListRequest, fault: Option<Error>) returns (r: Result<seq<string>>)
      ensures fault.Some? ==> r == Err(fault.value)
      ensures fault.None? ==> r.Ok? && ValidListing(entries, req, r.value)
    {
      if fault.Some? {
        return Err(fault.value);
      }
      var all := Enumerate(Matching(entries, req));
      var from := if req.offset < |all| then req.offset else |all|;
      var to := if req.limit > 0 && from + req.limit < |all| then from + req.limit else |all|;
      r := Ok(all[from..to]);
    }

    method Read(key: string, req: ReadRequest) returns (r: Result<seq<Record>>)
      ensures r == ReadRecords(entries, key, req)
    {
      r := ReadRecords(entries, key, req);
    }

    method Write(rec: Record, req: WriteRequest) returns (err: Option<Error>)
      modifies this
      ensures entries == WriteRecord(old(entries), rec, req)
      ensures options == old(options) && err == None
    {
      entries := entries[Coordinate(req.database, req.table, rec.key) := Entry(rec, req.expiry, req.ttl)];
      err := None;
    }

    method Delete(key: string, req: DeleteRequest) returns (err: Option<Error>)
      modifies this
      ensures entries == DeleteRecord(old(entries), key, req)
      ensures options == old(options) && err == None
    {
      entries := entries - {Coordinate(req.database, req.table, key)};
      err := None;
    }

    function Options(): StoreOptions
      reads this
    {
      options
    }

    function Name(): string
    {
      "memory"
    }
  }

  /** A record written into a table is read back from that table under its key,
      and a deleted key reads as not found. */
  lemma WriteThenReadRecord(entries: map<Coordinate, Entry>, rec: Record, w: WriteRequest, r: ReadRequest)
    requires r.database == w.database && r.table == w.table
    ensures ReadRecords(WriteRecord(entries, rec, w), rec.key, r) == Ok([rec])
    ensures ReadRecords(DeleteRecord(entries, rec.key, DeleteRequest(w.database, w.table)), rec.key, r) == Err(NotFound)
  {
  }
}
