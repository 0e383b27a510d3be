/** The in-memory backend of storage/memory.go: `memoryStore` wraps a go-micro
    in-memory store, folds the caller's options and translates them into the
    store's own option sets. What this file decides is which option fields are
    forwarded, that a payload must be a store record, and that an error from
    the store is returned before anything is decoded into `Result`. */
module StorageMemory {
  import opened Base
  import opened StorageOptions
  import MicroStore

  /** The `payload any` of Write and Update: a `*store.Record` or any other value. */
  datatype Payload = StoreRecord(record: MicroStore.Record) | OtherPayload(id: nat)

  /** The options List forwards: database/table, limit, offset, prefix, suffix. */
  function ListRequestOf(ops: ReadOptions): MicroStore.ListRequest
  {
    MicroStore.ListRequest(ops.database, ops.table, ops.limit, ops.offset, ops.prefix, ops.suffix)
  }

  /** The options Read forwards besides the key: database/table, limit, offset. */
  function ReadRequestOf(ops: ReadOptions): MicroStore.ReadRequest
  {
    MicroStore.ReadRequest(ops.database, ops.table, ops.limit, ops.offset)
  }

  /** The options Write forwards: database/table, expiry and TTL. */
  function WriteRequestOf(ops: WriteOptions): MicroStore.WriteRequest
  {
    MicroStore.WriteRequest(ops.database, ops.table, ops.expiry, ops.ttl)
  }

  /** The options Delete forwards besides the key: database/table. */
  function DeleteRequestOf(ops: DeleteOptions): MicroStore.DeleteRequest
  {
    MicroStore.DeleteRequest(ops.database, ops.table)
  }

  /** `mapstructure.Decode(res, ops.Result)`: a nil target is refused. */
  function Decode<T>(res: T, result: Option<Target>): (Option<Error>, Option<T>)
  {
    if result.None? then (Some(ResultNotPointer), None) else (None, Some(res))
  }

  /** Read's outcome: the error, and what was decoded into `Result`. */
  function ReadOutcome(entries: map<MicroStore.Coordinate, MicroStore.Entry>, ops: ReadOptions)
    : (Option<Error>, Option<seq<MicroStore.Record>>)
  {
    match MicroStore.ReadRecords(entries, ops.key, ReadRequestOf(ops))
    case Err(e) => (Some(e), None)
    case Ok(rs) => Decode(rs, ops.result)
  }

  /** Write's (and Update's) outcome: the new records and the error. */
  function WriteOutcome(entries: map<MicroStore.Coordinate, MicroStore.Entry>, payload: Payload, ops: WriteOptions)
    : (map<MicroStore.Coordinate, MicroStore.Entry>, Option<Error>)
  {
    match payload
    case OtherPayload(_) => (entries, Some(InvalidResultOption))
    case StoreRecord(rec) => (MicroStore.WriteRecord(entries, rec, WriteRequestOf(ops)), None)
  }

  class MemoryStore {
    const store: MicroStore.Store

    /** `NewMemoryStore`. */
    constructor ()
      ensures fresh(store) && store.entries == map[] && store.options == MicroStore.ZeroStoreOptions
    {
      store := new MicroStore.Store();
    }

    method Init(opts: seq<MicroStore.StoreOption>) returns (err: Option<Error>)
      modifies store
      ensures store.options == MicroStore.FoldStoreOptions(old(store.options), opts)
      ensures store.entries == old(store.entries) && err == None
    {
      err := store.Init(opts);
    }

    /** `fault` is a failure reported by the store's List. */
    method List(opts: seq<ReadOption>, fault: Option<Error>) returns (err: Option<Error>, decoded: Option<seq<string>>)
      ensures fault.Some? ==> err == fault && decoded == None
      ensures fault.None? && FoldRead(opts).result.None? ==> err == Some(ResultNotPointer) && decoded == None
      ensures fault.None? && FoldRead(opts).result.Some? ==>
        err == None && decoded.Some? && MicroStore.ValidListing(store.entries, ListRequestOf(FoldRead(opts)), decoded.value)
    {
      var ops := CollectReadOptions(opts);
      var res := store.List(ListRequestOf(ops), fault);
      if res.Err? {
        return Some(res.error), None;
      }
      err, decoded := Decode(res.value, ops.result).0, Decode(res.value, ops.result).1;
    }

    method Read(opts: seq<ReadOption>) returns (err: Option<Error>, decoded: Option<seq<MicroStore.Record>>)
      ensures (err, decoded) == ReadOutcome(store.entries, FoldRead(opts))
    {
      var ops := CollectReadOptions(opts);
      var res := store.Read(ops.key, ReadRequestOf(ops));
      if res.Err? {
        return Some(res.error), None;
      }
      err, decoded := Decode(res.value, ops.result).0, Decode(res.value, ops.result).1;
    }

    method Write(payload: Payload, opts: seq<WriteOption>) returns (err: Option<Error>)
      modifies store
      ensures (store.entries, err) == WriteOutcome(old(store.entries), payload, FoldWrite(opts))
      ensures store.options == old(store.options)
    {
      var ops := CollectWriteOptions(opts);
      if payload.OtherPayload? {
        return Some(InvalidResultOption);
      }
      err := store.Write(payload.record, WriteRequestOf(ops));
    }

    /** Update is Write. */
    method Update(payload: Payload, opts: seq<WriteOption>) returns (err: Option<Error>)
      modifies store
      ensures (store.entries, err) == WriteOutcome(old(store.entries), payload, FoldWrite(opts))
      ensures store.options == old(store.options)
    {
      err := Write(payload, opts);
    }

    method Delete(opts: seq<DeleteOption>) returns (err: Option<Error>)
      modifies store
      ensures var ops := FoldDelete(opts);
        store.entries == MicroStore.DeleteRecord(old(store.entries), ops.key, DeleteRequestOf(ops))
      ensures store.options == old(store.options) && err == None
    {
      var ops := CollectDeleteOptions(opts);
      err := store.Delete(ops.key, DeleteRequestOf(ops));
    }

    /** The options of the wrapped store: those Init folded in. */
    function Options(): (o: MicroStore.StoreOptions)
      reads store
      ensures o == store.options
    {
      store.Options()
    }

    /** The wrapped store's name. */
    function Name(): (r: string)
      ensures r == "memory"
    {
      store.Name()
    }
  }

  /** Read consults the store first: a missing key is `ErrNotFound` even when no
      `Result` was supplied, a found record without `Result` is refused by the
      decoder, and otherwise exactly the stored record is decoded. */
  lemma ReadOutcomeCases(entries: map<MicroStore.Coordinate, MicroStore.Entry>, ops: ReadOptions)
    ensures var c := MicroStore.Coordinate(ops.database, ops.table, ops.key);
      ReadOutcome(entries, ops) ==
        if c !in entries then (Some(NotFound), None)
        else if ops.result.None? then (Some(ResultNotPointer), None)
        else (None, Some([entries[c].record]))
  {
  }

  /** Read looks up `Key` in `Database`/`Table` only: `Value`, `Prefix` and
      `Suffix` do not change its outcome. */
  lemma ReadIgnoresFilters(entries: map<MicroStore.Coordinate, MicroStore.Entry>, ops: ReadOptions, v: string, p: string, s: string)
    ensures ReadOutcome(entries, ops.(value := v, prefix := p, suffix := s)) == ReadOutcome(entries, ops)
  {
  }

  /** List forwards everything but `Key`, `Value` and `Result`. */
  lemma ListIgnoresKeyAndValue(ops: ReadOptions, k: string, v: string, r: Option<Target>)
    ensures ListRequestOf(ops.(key := k, value := v, result := r)) == ListRequestOf(ops)
  {
  }

  /** A payload that is not a store record is refused and nothing changes. */
  lemma WriteRefusesOtherPayloads(entries: map<MicroStore.Coordinate, MicroStore.Entry>, id: nat, ops: WriteOptions)
    ensures WriteOutcome(entries, OtherPayload(id), ops) == (entries, Some(InvalidResultOption))
  {
  }

  /** Write's `Key` and `Value` options are dropped: only the record's own key places it. */
  lemma WriteIgnoresKeyAndValue(entries: map<MicroStore.Coordinate, MicroStore.Entry>, payload: Payload, ops: WriteOptions, k: string, v: string)
    ensures WriteOutcome(entries, payload, ops.(key := k, value := v)) == WriteOutcome(entries, payload, ops)
  {
  }

  /** A record written with `WriteTo(d, t)` is read back by `ReadFrom(d, t)`,
      `ReadKey(record key)` and a `ReadResult`; deleting that key then reads as not found. */
  lemma {:induction false} WriteThenRead(entries: map<MicroStore.Coordinate, MicroStore.Entry>, rec: MicroStore.Record,
                                         d: string, t: string, extra: seq<WriteOption>, into: Target)
    requires forall i :: 0 <= i < |extra| ==> WDatabase !in WriteFieldsSetBy(extra[i]) && WTable !in WriteFieldsSetBy(extra[i])
    ensures var (after, err) := WriteOutcome(entries, StoreRecord(rec), FoldWrite([WriteTo(d, t)] + extra));
      && err == None
      && ReadOutcome(after, FoldRead([ReadFrom(d, t), ReadKey(rec.key), ReadResult(Some(into))])) == (None, Some([rec]))
      && ReadOutcome(MicroStore.DeleteRecord(after, rec.key, MicroStore.DeleteRequest(d, t)),
                     FoldRead([ReadFrom(d, t), ReadKey(rec.key), ReadResult(Some(into))])) == (Some(NotFound), None)
  {
    var opts := [WriteTo(d, t)] + extra;
    FoldWriteUntouched([WriteTo(d, t)], extra, WDatabase);
    FoldWriteUntouched([WriteTo(d, t)], extra, WTable);
    assert [WriteTo(d, t)][..0] == [];
    var w := FoldWrite(opts);
    assert WriteFieldOf(w, WDatabase) == Text(d) && WriteFieldOf(w, WTable) == Text(t);
    var q1 := [ReadFrom(d, t)];
    var q2 := q1 + [ReadKey(rec.key)];
    var q3 := q2 + [ReadResult(Some(into))];
    assert q3 == [ReadFrom(d, t), ReadKey(rec.key), ReadResult(Some(into))];
    assert q3[..2] == q2 && q2[..1] == q1 && q1[..0] == [];
    assert FoldRead(q1) == ZeroReadOptions.(database := d, table := t);
    assert FoldRead(q2) == FoldRead(q1).(key := rec.key);
    var r := FoldRead(q3);
    assert r == FoldRead(q2).(result := Some(into));
    MicroStore.WriteThenReadRecord(entries, rec, WriteRequestOf(w), ReadRequestOf(r));
  }
}
