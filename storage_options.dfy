/** The functional-options query model of storage/storage.go: `ReadOptions`,
    `WriteOptions` and `DeleteOptions`, the option constructors that each set
    one or two fields, and the left-to-right fold every backend performs over a
    zero-valued options record. Each closure of the source is a constructor of
    a closed option datatype; applying it is a record update. */
module StorageOptions {
  import opened Base

  /** The address a caller passes to `ReadResult`: the slot a query decodes into.
      `ReadResult` takes an `Option<Target>`, whose `None` is Go's nil. */
  datatype Target = Target(id: nat)

  /** A field's content, so that the frame of every option can be stated uniformly. */
  datatype FieldValue = Text(s: string) | Number(n: int) | Slot(t: Option<Target>)

  // ------------------------------------------------------------------ read

  datatype ReadOptions = ReadOptions(
    database: string, table: string, key: string, value: string,
    prefix: string, suffix: string, limit: uint64, offset: uint64,
    result: Option<Target>)

  /** `var ops ReadOptions`: Go's zero value. */
  const ZeroReadOptions := ReadOptions("", "", "", "", "", "", 0, 0, None)

  datatype ReadOption =
    | ReadFrom(fromDatabase: string, fromTable: string)
    | ReadKey(key: string)
    | ReadValue(value: string)
    | ReadPrefix(prefix: string)
    | ReadSuffix(suffix: string)
    | ReadLimit(limit: uint64)
    | ReadOffset(offset: uint64)
    | ReadResult(result: Option<Target>)

  datatype ReadField = RDatabase | RTable | RKey | RValue | RPrefix | RSuffix | RLimit | ROffset | RResult

  /** What one option closure does to the record it is given. */
  function ApplyRead(ops: ReadOptions, o: ReadOption): ReadOptions
  {
    match o
    case ReadFrom(d, t) => ops.(database := d, table := t)
    case ReadKey(v) => ops.(key := v)
    case ReadValue(v) => ops.(value := v)
    case ReadPrefix(v) => ops.(prefix := v)
    case ReadSuffix(v) => ops.(suffix := v)
    case ReadLimit(v) => ops.(limit := v)
    case ReadOffset(v) => ops.(offset := v)
    case ReadResult(v) => ops.(result := v)
  }

  function ReadFieldOf(ops: ReadOptions, f: ReadField): FieldValue
  {
    match f
    case RDatabase => Text(ops.database)
    case RTable => Text(ops.table)
    case RKey => Text(ops.key)
    case RValue => Text(ops.value)
    case RPrefix => Text(ops.prefix)
    case RSuffix => Text(ops.suffix)
    case RLimit => Number(ops.limit)
    case ROffset => Number(ops.offset)
    case RResult => Slot(ops.result)
  }

  /** The fields an option is documented to set. */
  function ReadFieldsSetBy(o: ReadOption): set<ReadField>
  {
    match o
    case ReadFrom(_, _) => {RDatabase, RTable}
    case ReadKey(_) => {RKey}
    case ReadValue(_) => {RValue}
    case ReadPrefix(_) => {RPrefix}
    case ReadSuffix(_) => {RSuffix}
    case ReadLimit(_) => {RLimit}
    case ReadOffset(_) => {ROffset}
    case ReadResult(_) => {RResult}
  }

  /** The value an option puts into a field it sets. */
  function ReadWritten(o: ReadOption, f: ReadField): FieldValue
    requires f in ReadFieldsSetBy(o)
  {
    match o
    case ReadFrom(d, t) => if f == RDatabase then Text(d) else Text(t)
    case ReadKey(v) => Text(v)
    case ReadValue(v) => Text(v)
    case ReadPrefix(v) => Text(v)
    case ReadSuffix(v) => Text(v)
    case ReadLimit(v) => Number(v)
    case ReadOffset(v) => Number(v)
    case ReadResult(v) => Slot(v)
  }

  /** Each option sets exactly the fields it names and leaves all others unchanged. */
  lemma ApplyReadFrame(ops: ReadOptions, o: ReadOption, f: ReadField)
    ensures f in ReadFieldsSetBy(o) ==> ReadFieldOf(ApplyRead(ops, o), f) == ReadWritten(o, f)
    ensures f !in ReadFieldsSetBy(o) ==> ReadFieldOf(ApplyRead(ops, o), f) == ReadFieldOf(ops, f)
  {
  }

  /** Two records that agree on every field are the same record. */
  lemma ReadOptionsExtensional(a: ReadOptions, b: ReadOptions)
    requires forall f :: ReadFieldOf(a, f) == ReadFieldOf(b, f)
    ensures a == b
  {
    assert ReadFieldOf(a, RDatabase) == ReadFieldOf(b, RDatabase);
    assert ReadFieldOf(a, RTable) == ReadFieldOf(b, RTable);
    assert ReadFieldOf(a, RKey) == ReadFieldOf(b, RKey);
    assert ReadFieldOf(a, RValue) == ReadFieldOf(b, RValue);
    assert ReadFieldOf(a, RPrefix) == ReadFieldOf(b, RPrefix);
    assert ReadFieldOf(a, RSuffix) == ReadFieldOf(b, RSuffix);
    assert ReadFieldOf(a, RLimit) == ReadFieldOf(b, RLimit);
    assert ReadFieldOf(a, ROffset) == ReadFieldOf(b, ROffset);
    assert ReadFieldOf(a, RResult) == ReadFieldOf(b, RResult);
  }

  /** The backends' `for _, o := range opts { o(&ops) }` over a zero record. */
  function FoldRead(opts: seq<ReadOption>): ReadOptions
    decreases |opts|
  {
    if opts == [] then ZeroReadOptions
    else ApplyRead(FoldRead(opts[..|opts| - 1]), opts[|opts| - 1])
  }

  /** The position of the last option in `opts` that sets `f`, if any. */
  function LastReadWriter(opts: seq<ReadOption>, f: ReadField): (r: Option<nat>)
    ensures r.Some? ==> r.value < |opts| && f in ReadFieldsSetBy(opts[r.value])
    ensures r.Some? ==> forall j :: r.value < j < |opts| ==> f !in ReadFieldsSetBy(opts[j])
    ensures r.None? ==> forall j :: 0 <= j < |opts| ==> f !in ReadFieldsSetBy(opts[j])
    decreases |opts|
  {
    if opts == [] then None
    else if f in ReadFieldsSetBy(opts[|opts| - 1]) then Some(|opts| - 1)
    else LastReadWriter(opts[..|opts| - 1], f)
  }

  /** Folding an empty option list gives Go's zero record. */
  lemma FoldReadEmpty()
    ensures FoldRead([]) == ReadOptions("", "", "", "", "", "", 0, 0, None)
  {
  }

  /** After folding, every field holds what the last option setting it wrote,
      and its zero value if no option sets it. */
  lemma {:induction false} FoldReadLastWins(opts: seq<ReadOption>, f: ReadField)
    ensures ReadFieldOf(FoldRead(opts), f) ==
      match LastReadWriter(opts, f)
      case None => ReadFieldOf(ZeroReadOptions, f)
      case Some(i) => ReadWritten(opts[i], f)
    decreases |opts|
  {
    if opts != [] {
      var init := opts[..|opts| - 1];
      var last := opts[|opts| - 1];
      ApplyReadFrame(FoldRead(init), last, f);
      if f !in ReadFieldsSetBy(last) {
        FoldReadLastWins(init, f);
        match LastReadWriter(init, f)
        case None =>
        case Some(i) => assert opts[i] == init[i];
      }
    }
  }

  /** Options that set disjoint fields commute. */
  lemma ReadOptionsCommute(ops: ReadOptions, o1: ReadOption, o2: ReadOption)
    requires ReadFieldsSetBy(o1) !! ReadFieldsSetBy(o2)
    ensures ApplyRead(ApplyRead(ops, o1), o2) == ApplyRead(ApplyRead(ops, o2), o1)
  {
    forall f ensures ReadFieldOf(ApplyRead(ApplyRead(ops, o1), o2), f) == ReadFieldOf(ApplyRead(ApplyRead(ops, o2), o1), f) {
      ApplyReadFrame(ops, o1, f);
      ApplyReadFrame(ops, o2, f);
      ApplyReadFrame(ApplyRead(ops, o1), o2, f);
      ApplyReadFrame(ApplyRead(ops, o2), o1, f);
    }
    ReadOptionsExtensional(ApplyRead(ApplyRead(ops, o1), o2), ApplyRead(ApplyRead(ops, o2), o1));
  }

  /** The loop each backend runs over its variadic read options. */
  method CollectReadOptions(opts: seq<ReadOption>) returns (ops: ReadOptions)
    ensures ops == FoldRead(opts)
  {
    ops := ZeroReadOptions;
    for i := 0 to |opts|
      invariant ops == FoldRead(opts[..i])
    {
      assert opts[..i + 1][..i] == opts[..i];
      ops := ApplyRead(ops, opts[i]);
    }
    assert opts[..|opts|] == opts;
  }

  // ----------------------------------------------------------------- write

  /** `Expiry` is a `time.Time` and `TTL` a `time.Duration`, both in nanoseconds;
      zero is Go's zero value of each. */
  datatype WriteOptions = WriteOptions(
    database: string, table: string, key: string, value: string,
    expiry: int, ttl: int)

  const ZeroWriteOptions := WriteOptions("", "", "", "", 0, 0)

  datatype WriteOption =
    | WriteTo(toDatabase: string, toTable: string)
    | WriteKey(key: string)
    | WriteValue(value: string)
    | WriteExpiry(expiry: int)
    | WriteTTL(ttl: int)

  datatype WriteField = WDatabase | WTable | WKey | WValue | WExpiry | WTTL

  function ApplyWrite(ops: WriteOptions, o: WriteOption): WriteOptions
  {
    match o
    case WriteTo(d, t) => ops.(database := d, table := t)
    case WriteKey(v) => ops.(key := v)
    case WriteValue(v) => ops.(value := v)
    case WriteExpiry(v) => ops.(expiry := v)
    case WriteTTL(v) => ops.(ttl := v)
  }

  function WriteFieldOf(ops: WriteOptions, f: WriteField): FieldValue
  {
    match f
    case WDatabase => Text(ops.database)
    case WTable => Text(ops.table)
    case WKey => Text(ops.key)
    case WValue => Text(ops.value)
    case WExpiry => Number(ops.expiry)
    case WTTL => Number(ops.ttl)
  }

  function WriteFieldsSetBy(o: WriteOption): set<WriteField>
  {
    match o
    case WriteTo(_, _) => {WDatabase, WTable}
    case WriteKey(_) => {WKey}
    case WriteValue(_) => {WValue}
    case WriteExpiry(_) => {WExpiry}
    case WriteTTL(_) => {WTTL}
  }

  function WriteWritten(o: WriteOption, f: WriteField): FieldValue
    requires f in WriteFieldsSetBy(o)
  {
    match o
    case WriteTo(d, t) => if f == WDatabase then Text(d) else Text(t)
    case WriteKey(v) => Text(v)
    case WriteValue(v) => Text(v)
    case WriteExpiry(v) => Number(v)
    case WriteTTL(v) => Number(v)
  }

  lemma ApplyWriteFrame(ops: WriteOptions, o: WriteOption, f: WriteField)
    ensures f in WriteFieldsSetBy(o) ==> WriteFieldOf(ApplyWrite(ops, o), f) == WriteWritten(o, f)
    ensures f !in WriteFieldsSetBy(o) ==> WriteFieldOf(ApplyWrite(ops, o), f) == WriteFieldOf(ops, f)
  {
  }

  lemma WriteOptionsExtensional(a: WriteOptions, b: WriteOptions)
    requires forall f :: WriteFieldOf(a, f) == WriteFieldOf(b, f)
    ensures a == b
  {
    assert WriteFieldOf(a, WDatabase) == WriteFieldOf(b, WDatabase);
    assert WriteFieldOf(a, WTable) == WriteFieldOf(b, WTable);
    assert WriteFieldOf(a, WKey) == WriteFieldOf(b, WKey);
    assert WriteFieldOf(a, WValue) == WriteFieldOf(b, WValue);
    assert WriteFieldOf(a, WExpiry) == WriteFieldOf(b, WExpiry);
    assert WriteFieldOf(a, WTTL) == WriteFieldOf(b, WTTL);
  }

  function FoldWrite(opts: seq<WriteOption>): WriteOptions
    decreases |opts|
  {
    if opts == [] then ZeroWriteOptions
    else ApplyWrite(FoldWrite(opts[..|opts| - 1]), opts[|opts| - 1])
  }

  function LastWriteWriter(opts: seq<WriteOption>, f: WriteField): (r: Option<nat>)
    ensures r.Some? ==> r.value < |opts| && f in WriteFieldsSetBy(opts[r.value])
    ensures r.Some? ==> forall j :: r.value < j < |opts| ==> f !in WriteFieldsSetBy(opts[j])
    ensures r.None? ==> forall j :: 0 <= j < |opts| ==> f !in WriteFieldsSetBy(opts[j])
    decreases |opts|
  {
    if opts == [] then None
    else if f in WriteFieldsSetBy(opts[|opts| - 1]) then Some(|opts| - 1)
    else LastWriteWriter(opts[..|opts| - 1], f)
  }

  lemma FoldWriteEmpty()
    ensures FoldWrite([]) == WriteOptions("", "", "", "", 0, 0)
  {
  }

  lemma {:induction false} FoldWriteLastWins(opts: seq<WriteOption>, f: WriteField)
    ensures WriteFieldOf(FoldWrite(opts), f) ==
      match LastWriteWriter(opts, f)
      case None => WriteFieldOf(ZeroWriteOptions, f)
      case Some(i) => WriteWritten(opts[i], f)
    decreases |opts|
  {
    if opts != [] {
      var init := opts[..|opts| - 1];
      var last := opts[|opts| - 1];
      ApplyWriteFrame(FoldWrite(init), last, f);
      if f !in WriteFieldsSetBy(last) {
        FoldWriteLastWins(init, f);
        match LastWriteWriter(init, f)
        case None =>
        case Some(i) => assert opts[i] == init[i];
      }
    }
  }

  /** Options that do not set `f` leave it as the earlier options left it. */
  lemma {:induction false} FoldWriteUntouched(a: seq<WriteOption>, b: seq<WriteOption>, f: WriteField)
    requires forall i :: 0 <= i < |b| ==> f !in WriteFieldsSetBy(b[i])
    ensures WriteFieldOf(FoldWrite(a + b), f) == WriteFieldOf(FoldWrite(a), f)
    decreases |b|
  {
    if b == [] {
      assert a + b == a;
    } else {
      var b' := b[..|b| - 1];
      assert (a + b)[..|a + b| - 1] == a + b';
      assert (a + b)[|a + b| - 1] == b[|b| - 1];
      ApplyWriteFrame(FoldWrite(a + b'), b[|b| - 1], f);
      FoldWriteUntouched(a, b', f);
    }
  }

  lemma WriteOptionsCommute(ops: WriteOptions, o1: WriteOption, o2: WriteOption)
    requires WriteFieldsSetBy(o1) !! WriteFieldsSetBy(o2)
    ensures ApplyWrite(ApplyWrite(ops, o1), o2) == ApplyWrite(ApplyWrite(ops, o2), o1)
  {
    forall f ensures WriteFieldOf(ApplyWrite(ApplyWrite(ops, o1), o2), f) == WriteFieldOf(ApplyWrite(ApplyWrite(ops, o2), o1), f) {
      ApplyWriteFrame(ops, o1, f);
      ApplyWriteFrame(ops, o2, f);
      ApplyWriteFrame(ApplyWrite(ops, o1), o2, f);
      ApplyWriteFrame(ApplyWrite(ops, o2), o1, f);
    }
    WriteOptionsExtensional(ApplyWrite(ApplyWrite(ops, o1), o2), ApplyWrite(ApplyWrite(ops, o2), o1));
  }

  method CollectWriteOptions(opts: seq<WriteOption>) returns (ops: WriteOptions)
    ensures ops == FoldWrite(opts)
  {
    ops := ZeroWriteOptions;
    for i := 0 to |opts|
      invariant ops == FoldWrite(opts[..i])
    {
      assert opts[..i + 1][..i] == opts[..i];
      ops := ApplyWrite(ops, opts[i]);
    }
    assert opts[..|opts|] == opts;
  }

  // ---------------------------------------------------------------- delete

  datatype DeleteOptions = DeleteOptions(database: string, table: string, key: string, value: string)

  const ZeroDeleteOptions := DeleteOptions("", "", "", "")

  datatype DeleteOption =
    | DeleteFrom(fromDatabase: string, fromTable: string)
    | DeleteKey(key: string)
    | DeleteValue(value: string)

  datatype DeleteField = DDatabase | DTable | DKey | DValue

  function ApplyDelete(ops: DeleteOptions, o: DeleteOption): DeleteOptions
  {
    match o
    case DeleteFrom(d, t) => ops.(database := d, table := t)
    case DeleteKey(v) => ops.(key := v)
    case DeleteValue(v) => ops.(value := v)
  }

  function DeleteFieldOf(ops: DeleteOptions, f: DeleteField): FieldValue
  {
    match f
    case DDatabase => Text(ops.database)
    case DTable => Text(ops.table)
    case DKey => Text(ops.key)
    case DValue => Text(ops.value)
  }

  function DeleteFieldsSetBy(o: DeleteOption): set<DeleteField>
  {
    match o
    case DeleteFrom(_, _) => {DDatabase, DTable}
    case DeleteKey(_) => {DKey}
    case DeleteValue(_) => {DValue}
  }

  function DeleteWritten(o: DeleteOption, f: DeleteField): FieldValue
    requires f in DeleteFieldsSetBy(o)
  {
    match o
    case DeleteFrom(d, t) => if f == DDatabase then Text(d) else Text(t)
    case DeleteKey(v) => Text(v)
    case DeleteValue(v) => Text(v)
  }

  lemma ApplyDeleteFrame(ops: DeleteOptions, o: DeleteOption, f: DeleteField)
    ensures f in DeleteFieldsSetBy(o) ==> DeleteFieldOf(ApplyDelete(ops, o), f) == DeleteWritten(o, f)
    ensures f !in DeleteFieldsSetBy(o) ==> DeleteFieldOf(ApplyDelete(ops, o), f) == DeleteFieldOf(ops, f)
  {
  }

  lemma DeleteOptionsExtensional(a: DeleteOptions, b: DeleteOptions)
    requires forall f :: DeleteFieldOf(a, f) == DeleteFieldOf(b, f)
    ensures a == b
  {
    assert DeleteFieldOf(a, DDatabase) == DeleteFieldOf(b, DDatabase);
    assert DeleteFieldOf(a, DTable) == DeleteFieldOf(b, DTable);
    assert DeleteFieldOf(a, DKey) == DeleteFieldOf(b, DKey);
    assert DeleteFieldOf(a, DValue) == DeleteFieldOf(b, DValue);
  }

  function FoldDelete(opts: seq<DeleteOption>): DeleteOptions
    decreases |opts|
  {
    if opts == [] then ZeroDeleteOptions
    else ApplyDelete(FoldDelete(opts[..|opts| - 1]), opts[|opts| - 1])
  }

  function LastDeleteWriter(opts: seq<DeleteOption>, f: DeleteField): (r: Option<nat>)
    ensures r.Some? ==> r.value < |opts| && f in DeleteFieldsSetBy(opts[r.value])
    ensures r.Some? ==> forall j :: r.value < j < |opts| ==> f !in DeleteFieldsSetBy(opts[j])
    ensures r.None? ==> forall j :: 0 <= j < |opts| ==> f !in DeleteFieldsSetBy(opts[j])
    decreases |opts|
  {
    if opts == [] then None
    else if f in DeleteFieldsSetBy(opts[|opts| - 1]) then Some(|opts| - 1)
    else LastDeleteWriter(opts[..|opts| - 1], f)
  }

  lemma FoldDeleteEmpty()
    ensures FoldDelete([]) == DeleteOptions("", "", "", "")
  {
  }

  lemma {:induction false} FoldDeleteLastWins(opts: seq<DeleteOption>, f: DeleteField)
    ensures DeleteFieldOf(FoldDelete(opts), f) ==
      match LastDeleteWriter(opts, f)
      case None => DeleteFieldOf(ZeroDeleteOptions, f)
      case Some(i) => DeleteWritten(opts[i], f)
    decreases |opts|
  {
    if opts != [] {
      var init := opts[..|opts| - 1];
      var last := opts[|opts| - 1];
      ApplyDeleteFrame(FoldDelete(init), last, f);
      if f !in DeleteFieldsSetBy(last) {
        FoldDeleteLastWins(init, f);
        match LastDeleteWriter(init, f)
        case None =>
        case Some(i) => assert opts[i] == init[i];
      }
    }
  }

  lemma DeleteOptionsCommute(ops: DeleteOptions, o1: DeleteOption, o2: DeleteOption)
    requires DeleteFieldsSetBy(o1) !! DeleteFieldsSetBy(o2)
    ensures ApplyDelete(ApplyDelete(ops, o1), o2) == ApplyDelete(ApplyDelete(ops, o2), o1)
  {
    forall f ensures DeleteFieldOf(ApplyDelete(ApplyDelete(ops, o1), o2), f) == DeleteFieldOf(ApplyDelete(ApplyDelete(ops, o2), o1), f) {
      ApplyDeleteFrame(ops, o1, f);
      ApplyDeleteFrame(ops, o2, f);
      ApplyDeleteFrame(ApplyDelete(ops, o1), o2, f);
      ApplyDeleteFrame(ApplyDelete(ops, o2), o1, f);
    }
    DeleteOptionsExtensional(ApplyDelete(ApplyDelete(ops, o1), o2), ApplyDelete(ApplyDelete(ops, o2), o1));
  }

  method CollectDeleteOptions(opts: seq<DeleteOption>) returns (ops: DeleteOptions)
    ensures ops == FoldDelete(opts)
  {
    ops := ZeroDeleteOptions;
    for i := 0 to |opts|
      invariant ops == FoldDelete(opts[..i])
    {
      assert opts[..i + 1][..i] == opts[..i];
      ops := ApplyDelete(ops, opts[i]);
    }
    assert opts[..|opts|] == opts;
  }
}
