/** The MongoDB backend of storage/mongo.go. The database mgm connects to is an
    object of its own (`Server`): a map from collection names to the sequence of
    documents each collection holds, in natural order. What this file decides
    is which filter each operation uses, which option fields reach the driver,
    where the missing-`Result` check falls relative to the driver's errors,
    and that a commit is attempted only after the single operation of a
    transaction has succeeded. Driver and network failures are parameters. */
module StorageMongo {
  import opened Base
  import opened StorageOptions
  import MicroStore

  /** A BSON document reduced to string-valued fields. */
  datatype Document = Document(fields: map<string, string>)

  type Tables = map<string, seq<Document>>

  /** A collection that was never written reads as empty. */
  function Collection(tables: Tables, name: string): (docs: seq<Document>)
    ensures name !in tables ==> docs == []
    ensures name in tables ==> docs == tables[name]
  {
    if name in tables then tables[name] else []
  }

  /** The filter `{key: value}`. */
  predicate Matches(d: Document, key: string, value: string)
  {
    key in d.fields && d.fields[key] == value
  }

  /** The position of the first document in natural order that the filter selects. */
  function FirstMatch(docs: seq<Document>, key: string, value: string): (r: Option<nat>)
    ensures r.Some? ==> r.value < |docs| && Matches(docs[r.value], key, value)
    ensures r.Some? ==> forall j :: 0 <= j < r.value ==> !Matches(docs[j], key, value)
    ensures r.None? ==> forall j :: 0 <= j < |docs| ==> !Matches(docs[j], key, value)
    decreases |docs|
  {
    if docs == [] then None
    else if Matches(docs[0], key, value) then Some(0)
    else match FirstMatch(docs[1..], key, value)
      case None => None
      case Some(i) => Some(i + 1)
  }

  /** The field the driver keys every stored document on. */
  const IdField := "_id"

  /** The document `InsertOne` stores: the payload, given the driver-generated
      `id` under `_id` when it carries none of its own. */
  function WithId(payload: Document, id: string): (d: Document)
    ensures IdField in d.fields
    ensures IdField in payload.fields ==> d == payload
    ensures IdField !in payload.fields ==> d.fields[IdField] == id
    ensures d.fields.Keys == payload.fields.Keys + {IdField}
    ensures forall k :: k in payload.fields ==> d.fields[k] == payload.fields[k]
  {
    if IdField in payload.fields then payload else Document(payload.fields[IdField := id])
  }

  /** `InsertOne`: the payload, with its `_id`, becomes the last document of the
      collection. */
  function Inserted(tables: Tables, name: string, payload: Document, id: string): Tables
  {
    tables[name := Collection(tables, name) + [WithId(payload, id)]]
  }

  /** `$set`: the payload's fields overwrite or extend the document's. */
  function SetFields(d: Document, payload: Document): Document
  {
    Document(d.fields + payload.fields)
  }

  /** `UpdateOne(filter, {$set: payload})` on one collection. */
  function UpdateFirst(docs: seq<Document>, key: string, value: string, payload: Document): seq<Document>
  {
    match FirstMatch(docs, key, value)
    case None => docs
    case Some(i) => docs[i := SetFields(docs[i], payload)]
  }

  /** `DeleteOne(filter)` on one collection. */
  function DeleteFirst(docs: seq<Document>, key: string, value: string): seq<Document>
  {
    match FirstMatch(docs, key, value)
    case None => docs
    case Some(i) => docs[..i] + docs[i + 1..]
  }

  /** The documents a find with `skip` and `limit` yields, for a skip the server
      accepts: a limit of zero means no limit and a negative limit is taken by
      its absolute value. */
  function Page(docs: seq<Document>, skip: int, limit: int): (page: seq<Document>)
    requires skip >= 0
  {
    var rest := if skip < |docs| then docs[skip..] else [];
    var n := if limit == 0 then |rest| else if limit < 0 then -limit else limit;
    if n < |rest| then rest[..n] else rest
  }

  /** A `context.Context`, reduced to its deadline. */
  datatype Context = Background | Deadline(at: int)

  /** Nanoseconds per second: Go's `time.Second`. */
  const Second := 1_000_000_000

  /** The deadline of mgm's default configuration and of Delete's own context. */
  const OperationTimeout := 3 * Second

  /** `context.WithTimeout(context.Background(), d)` at time `now`. */
  function WithTimeout(now: int, d: int): Context
  {
    Deadline(now + d)
  }

  /** What mgm is configured with: the database, the URI of the first node and
      the per-operation timeout. */
  datatype Connection = Connection(database: string, uri: string, timeout: int)

  /** The failures a transaction can meet: starting the session or transaction,
      the single operation inside it, and the commit. */
  datatype TxFaults = TxFaults(session: Option<Error>, operation: Option<Error>, commit: Option<Error>)

  /** The failures List can meet: the find, draining the cursor, closing it. */
  datatype ListFaults = ListFaults(find: Option<Error>, all: Option<Error>, close: Option<Error>)

  /** `mgm.TransactionWithCtx` around one operation that turns `before` into
      `after`: the new collections, the error, and whether a commit was
      attempted. The operation runs under the outer context rather than the
      session's, so a failed commit does not undo it. */
  function Transact(faults: TxFaults, before: Tables, after: Tables): (Tables, Option<Error>, bool)
  {
    if faults.session.Some? then (before, faults.session, false)
    else if faults.operation.Some? then (before, faults.operation, false)
    else (after, faults.commit, true)
  }

  /** Write's outcome; `id` is the object id the driver generates for the insert. */
  function WriteOutcome(tables: Tables, payload: Document, id: string, ops: WriteOptions, faults: TxFaults): (Tables, Option<Error>, bool)
  {
    Transact(faults, tables, Inserted(tables, ops.table, payload, id))
  }

  function UpdateOutcome(tables: Tables, payload: Document, ops: WriteOptions, faults: TxFaults): (Tables, Option<Error>, bool)
  {
    Transact(faults, tables, tables[ops.table := UpdateFirst(Collection(tables, ops.table), ops.key, ops.value, payload)])
  }

  function DeleteOutcome(tables: Tables, ops: DeleteOptions, faults: TxFaults): (Tables, Option<Error>, bool)
  {
    Transact(faults, tables, tables[ops.table := DeleteFirst(Collection(tables, ops.table), ops.key, ops.value)])
  }

  /** Read: the missing-`Result` check comes first; then the find's own failure
      or `ErrNoDocuments`, surfaced by the decode. */
  function ReadOutcome(tables: Tables, ops: ReadOptions, fault: Option<Error>): (Option<Error>, Option<Document>)
  {
    if ops.result.None? then (Some(InvalidResultOption), None)
    else if fault.Some? then (fault, None)
    else
      var docs := Collection(tables, ops.table);
      match FirstMatch(docs, ops.key, ops.value)
      case None => (Some(NoDocuments), None)
      case Some(i) => (None, Some(docs[i]))
  }

  /** List: the find's failure comes first, then the missing-`Result` check,
      then draining the cursor into `Result`, then closing it. A failed close
      is reported although `Result` has already been filled. */
  function ListOutcome(tables: Tables, ops: ReadOptions, faults: ListFaults): (Option<Error>, Option<seq<Document>>)
  {
    var skip := ToInt64(ops.offset);
    var limit := ToInt64(ops.limit);
    if faults.find.Some? then (faults.find, None)
    else if skip < 0 then (Some(NegativeSkip), None)
    else if ops.result.None? then (Some(InvalidResultOption), None)
    else if faults.all.Some? then (faults.all, None)
    else (faults.close, Some(Page(Collection(tables, ops.table), skip, limit)))
  }

  /** The database behind mgm's default connection. */
  class Server {
    var tables: Tables

    constructor (tables: Tables)
      ensures this.tables == tables
    {
      this.tables := tables;
    }
  }

  class MongoStore {
    var options: MicroStore.StoreOptions
    var connection: Option<Connection>
    const server: Server

    /** `NewMongoStore`: zero options, not yet configured. */
    constructor (server: Server)
      ensures options == MicroStore.ZeroStoreOptions && connection == None && this.server == server
    {
      options := MicroStore.ZeroStoreOptions;
      connection := None;
      this.server := server;
    }

    /** Applies the options in order, then configures mgm with the database and
        the first node; `fault` is the failure of that configuration. The first
        node is indexed unconditionally, so at least one node is required. */
    method Init(opts: seq<MicroStore.StoreOption>, fault: Option<Error>) returns (err: Option<Error>)
      requires |MicroStore.FoldStoreOptions(options, opts).nodes| > 0
      modifies this
      ensures options == MicroStore.FoldStoreOptions(old(options), opts)
      ensures err == fault
      ensures fault.None? ==> connection == Some(Connection(options.database, options.nodes[0], OperationTimeout))
      ensures fault.Some? ==> connection == old(connection)
    {
      ghost var start := options;
      for i := 0 to |opts|
        invariant options == MicroStore.FoldStoreOptions(start, opts[..i])
        invariant connection == old(connection)
      {
        assert opts[..i + 1][..i] == opts[..i];
        options := MicroStore.ApplyStoreOption(options, opts[i]);
      }
      assert opts[..|opts|] == opts;
      err := fault;
      if fault.None? {
        connection := Some(Connection(options.database, options.nodes[0], OperationTimeout));
      }
    }

    method List(ctx: Context, opts: seq<ReadOption>, faults: ListFaults) returns (err: Option<Error>, decoded: Option<seq<Document>>)
      ensures (err, decoded) == ListOutcome(server.tables, FoldRead(opts), faults)
    {
      var ops := CollectReadOptions(opts);
      var skip := ToInt64(ops.offset);
      var limit := ToInt64(ops.limit);
      if faults.find.Some? {
        return faults.find, None;
      }
      if skip < 0 {
        return Some(NegativeSkip), None;
      }
      if ops.result.None? {
        return Some(InvalidResultOption), None;
      }
      if faults.all.Some? {
        return faults.all, None;
      }
      decoded := Some(Page(Collection(server.tables, ops.table), skip, limit));
      err := faults.close;
    }

    method Read(ctx: Context, opts: seq<ReadOption>, fault: Option<Error>) returns (err: Option<Error>, decoded: Option<Document>)
      ensures (err, decoded) == ReadOutcome(server.tables, FoldRead(opts), fault)
    {
      var ops := CollectReadOptions(opts);
      if ops.result.None? {
        return Some(InvalidResultOption), None;
      }
      if fault.Some? {
        return fault, None;
      }
      var docs := Collection(server.tables, ops.table);
      var found := FirstMatch(docs, ops.key, ops.value);
      if found.None? {
        return Some(NoDocuments), None;
      }
      err, decoded := None, Some(docs[found.value]);
    }

    /** `used` is the context the insert runs under; `id` is the object id the
        driver generates. */
    method Write(ctx: Context, payload: Document, id: string, opts: seq<WriteOption>, faults: TxFaults)
      returns (err: Option<Error>, committed: bool, used: Context)
      modifies server
      ensures (server.tables, err, committed) == WriteOutcome(old(server.tables), payload, id, FoldWrite(opts), faults)
      ensures used == ctx
    {
      var ops := CollectWriteOptions(opts);
      used := ctx;
      committed := false;
      if faults.session.Some? {
        return faults.session, committed, used;
      }
      if faults.operation.Some? {
        return faults.operation, committed, used;
      }
      server.tables := Inserted(server.tables, ops.table, payload, id);
      committed := true;
      err := faults.commit;
    }

    method Update(ctx: Context, payload: Document, opts: seq<WriteOption>, faults: TxFaults)
      returns (err: Option<Error>, committed: bool, used: Context)
      modifies server
      ensures (server.tables, err, committed) == UpdateOutcome(old(server.tables), payload, FoldWrite(opts), faults)
      ensures used == ctx
    {
      var ops := CollectWriteOptions(opts);
      used := ctx;
      committed := false;
      if faults.session.Some? {
        return faults.session, committed, used;
      }
      if faults.operation.Some? {
        return faults.operation, committed, used;
      }
      var docs := Collection(server.tables, ops.table);
      server.tables := server.tables[ops.table := UpdateFirst(docs, ops.key, ops.value, payload)];
      committed := true;
      err := faults.commit;
    }

    /** The caller's context is not used: the deletion runs under a fresh
        3-second deadline taken at `now`. */
    method Delete(ctx: Context, now: int, opts: seq<DeleteOption>, faults: TxFaults)
      returns (err: Option<Error>, committed: bool, used: Context)
      modifies server
      ensures (server.tables, err, committed) == DeleteOutcome(old(server.tables), FoldDelete(opts), faults)
      ensures used == WithTimeout(now, OperationTimeout)
    {
      var ops := CollectDeleteOptions(opts);
      used := WithTimeout(now, OperationTimeout);
      committed := false;
      if faults.session.Some? {
        return faults.session, committed, used;
      }
      if faults.operation.Some? {
        return faults.operation, committed, used;
      }
      var docs := Collection(server.tables, ops.table);
      server.tables := server.tables[ops.table := DeleteFirst(docs, ops.key, ops.value)];
      committed := true;
      err := faults.commit;
    }

    /** The options Init folded in. */
    function Options(): (o: MicroStore.StoreOptions)
      reads this
      ensures o == options
    {
      options
    }

    function Name(): (r: string)
      ensures r == "mongodb"
    {
      "mongodb"
    }
  }

  // ------------------------------------------------------------- properties

  /** A commit is attempted exactly when the session started and the operation
      succeeded; the collections change only then, and stay changed when the
      commit itself fails; every failure is returned unchanged. */
  lemma TransactCommitsOnlyAfterSuccess(faults: TxFaults, before: Tables, after: Tables)
    ensures var (t, err, committed) := Transact(faults, before, after);
      && (committed <==> faults.session.None? && faults.operation.None?)
      && (committed ==> t == after && err == faults.commit)
      && (!committed ==> t == before && err.Some?)
      && (faults.session.Some? ==> err == faults.session)
      && (faults.session.None? && faults.operation.Some? ==> err == faults.operation)
  {
  }

  /** Read without `Result` is refused before the driver is consulted: no find
      failure and no missing document can change that answer. */
  lemma ReadRefusesMissingResultFirst(tables: Tables, ops: ReadOptions, fault: Option<Error>)
    requires ops.result.None?
    ensures ReadOutcome(tables, ops, fault) == (Some(InvalidResultOption), None)
  {
  }

  /** A later `ReadResult(nil)` clears an earlier target, and Read is then
      refused as if no target had been given. */
  lemma ReadResultNilRefused(tables: Tables, into: Target, fault: Option<Error>)
    ensures ReadOutcome(tables, FoldRead([ReadResult(Some(into)), ReadResult(None)]), fault) == (Some(InvalidResultOption), None)
  {
    var opts := [ReadResult(Some(into)), ReadResult(None)];
    assert opts[..1] == [ReadResult(Some(into))] && opts[..1][..0] == [];
  }

  /** List, unlike Read, reports a failed find before it checks for `Result`. */
  lemma ListReportsFindErrorFirst(tables: Tables, ops: ReadOptions, faults: ListFaults)
    requires faults.find.Some?
    ensures ListOutcome(tables, ops, faults) == (faults.find, None)
  {
  }

  /** List ignores `Key`, `Value`, `Prefix`, `Suffix` and `Database`: the filter is
      empty and the collection is chosen by `Table` alone. */
  lemma ListIgnoresFilters(tables: Tables, ops: ReadOptions, faults: ListFaults, k: string, v: string, p: string, s: string, d: string)
    ensures ListOutcome(tables, ops.(key := k, value := v, prefix := p, suffix := s, database := d), faults)
         == ListOutcome(tables, ops, faults)
  {
  }

  /** Read selects by the single pair `{Key: Value}`: what it decodes is the first
      document in natural order with that field value, and a document is found
      exactly when one matches. */
  lemma ReadFindsFirstMatch(tables: Tables, ops: ReadOptions)
    requires ops.result.Some?
    ensures var (err, decoded) := ReadOutcome(tables, ops, None);
      var docs := Collection(tables, ops.table);
      && (decoded.Some? <==> exists i :: 0 <= i < |docs| && Matches(docs[i], ops.key, ops.value))
      && (decoded.Some? ==> err == None && Matches(decoded.value, ops.key, ops.value) && decoded.value in docs)
      && (decoded.None? ==> err == Some(NoDocuments))
  {
    var docs := Collection(tables, ops.table);
    match FirstMatch(docs, ops.key, ops.value)
    case None =>
    case Some(i) =>
  }

  /** A page is the run of consecutive documents starting at `skip`, as long as
      the magnitude of a non-zero limit allows and the documents after `skip`
      provide; with no skip and no limit it is the whole collection, and a
      limit `n` after an offset `m` on at least `m + n` documents gives exactly
      those `n`. */
  lemma PageShape(docs: seq<Document>, skip: int, limit: int)
    requires skip >= 0
    ensures var page := Page(docs, skip, limit);
      var avail := if skip < |docs| then |docs| - skip else 0;
      var want := if limit == 0 then avail else if limit < 0 then -limit else limit;
      && |page| == (if want < avail then want else avail)
      && (limit > 0 ==> |page| <= limit)
      && (limit < 0 ==> |page| <= -limit)
      && (skip < |docs| ==> page == docs[skip..skip + |page|])
      && (skip >= |docs| ==> page == [])
      && (skip == 0 && limit == 0 ==> page == docs)
    ensures limit > 0 && skip + limit <= |docs| ==> Page(docs, skip, limit) == docs[skip..skip + limit]
  {
  }

  /** `UpdateOne` changes at most the first matching document, merging the
      payload's fields into it; every other document and the collection's
      length are unchanged, and with no match nothing changes. */
  lemma UpdateFirstShape(docs: seq<Document>, key: string, value: string, payload: Document)
    ensures var r := UpdateFirst(docs, key, value, payload);
      && |r| == |docs|
      && (FirstMatch(docs, key, value).None? ==> r == docs)
      && (FirstMatch(docs, key, value).Some? ==>
            var i := FirstMatch(docs, key, value).value;
            && r[i] == SetFields(docs[i], payload)
            && (forall j :: 0 <= j < |docs| && j != i ==> r[j] == docs[j]))
  {
  }

  /** After `$set`, every payload field has the payload's value and every other
      field keeps its old value. */
  lemma SetFieldsMerges(d: Document, payload: Document)
    ensures forall k :: k in payload.fields ==> k in SetFields(d, payload).fields && SetFields(d, payload).fields[k] == payload.fields[k]
    ensures forall k :: k in d.fields && k !in payload.fields ==> k in SetFields(d, payload).fields && SetFields(d, payload).fields[k] == d.fields[k]
    ensures SetFields(d, payload).fields.Keys == d.fields.Keys + payload.fields.Keys
  {
  }

  /** `DeleteOne` removes exactly one document, the first match, keeping the
      others in order; with no match nothing changes. */
  lemma DeleteFirstShape(docs: seq<Document>, key: string, value: string)
    ensures var r := DeleteFirst(docs, key, value);
      && (FirstMatch(docs, key, value).None? ==> r == docs)
      && (FirstMatch(docs, key, value).Some? ==>
            var i := FirstMatch(docs, key, value).value;
            && r == docs[..i] + docs[i + 1..]
            && |r| == |docs| - 1
            && multiset(r) + multiset{docs[i]} == multiset(docs))
  {
    match FirstMatch(docs, key, value)
    case None =>
    case Some(i) =>
      assert docs == docs[..i] + [docs[i]] + docs[i + 1..];
  }

  /** A document inserted into a collection in which nothing matched `{k: v}` is
      what Read then decodes for `Key(k)`, `Value(v)`: the payload together with
      the `_id` the driver gave it. A following Delete with the same filter
      removes it again. */
  lemma {:induction false} WriteThenRead(tables: Tables, payload: Document, id: string, ops: WriteOptions, r: ReadOptions, into: Target)
    requires r.table == ops.table && r.result == Some(into)
    requires Matches(payload, r.key, r.value)
    requires FirstMatch(Collection(tables, ops.table), r.key, r.value).None?
    ensures var (after, err, committed) := WriteOutcome(tables, payload, id, ops, TxFaults(None, None, None));
      && err == None && committed
      && ReadOutcome(after, r, None) == (None, Some(WithId(payload, id)))
      && DeleteFirst(Collection(after, ops.table), r.key, r.value) == Collection(tables, ops.table)
  {
    var docs := Collection(tables, ops.table);
    var stored := WithId(payload, id);
    var after := Inserted(tables, ops.table, payload, id);
    assert Collection(after, ops.table) == docs + [stored];
    assert Matches(stored, r.key, r.value);
    FirstMatchAppend(docs, stored, r.key, r.value);
    assert (docs + [stored])[..|docs|] == docs;
  }

  /** Appending a matching document to a sequence with no match makes it the first match. */
  lemma {:induction false} FirstMatchAppend(docs: seq<Document>, d: Document, key: string, value: string)
    requires FirstMatch(docs, key, value).None? && Matches(d, key, value)
    ensures FirstMatch(docs + [d], key, value) == Some(|docs|)
  {
    var r := FirstMatch(docs + [d], key, value);
    assert (docs + [d])[|docs|] == d;
    assert forall j :: 0 <= j < |docs| ==> (docs + [d])[j] == docs[j];
    match r
    case None =>
    case Some(i) =>
  }
}
