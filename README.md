# onlyoffice-integration-adapters, modelled in Dafny

This project models the adapter layer of a Go library that wraps go-micro services.
It covers the following parts:

- **Storage.** Functional read, write and delete options, folded over a zero-valued
  options record. Three backends use them: an in-memory backend over go-micro's
  store, a MongoDB backend over mgm, and a no-op backend. A selector picks the
  backend from the configuration.
- **Cache.** A cache facade over a gocache store, and the selector that builds it.
- **Configuration.** The validators of the storage, cache, server, messaging,
  worker and registry configurations.
- **Messaging.** The decision table that builds a message broker.
- **Pipe.** A short-circuiting pipe of actions.
- **Crypto.** The framing that the AES-GCM encryptor and the OAuth state generator
  add around uninterpreted cryptographic primitives.

The modules follow the Go packages. Most model one source file. storage/storage.go
is split in two: `StorageOptions` holds its options and `StorageSelector` its
`NewStorage`. Three modules model no repository file but the libraries the code
calls:

- `MicroStore` is go-micro's store.
- `ConfigCommon` is `strings.TrimSpace`.
- `CryptoCommon` is `io.ReadFull` and the base64 codec.

The modules by package:

- `Base` holds the shared options, results, errors and integer types.
- `StorageOptions`, `StorageMemory`, `StorageMongo`, `StorageEmpty` and
  `StorageSelector` model the storage package, over `MicroStore`.
- `Cache` models the cache package.
- The `Config*` modules model the validators.
- `Messaging` and `Functional` model the broker builder and the pipe.
- `CryptoAes` and `CryptoState` model the crypto package, over `CryptoCommon`.

The model follows each file's style:

- **Objects that Go updates in place are classes** with `modifies` clauses: the
  stores, the cache, the pipe, and the storage and server configurations, whose
  `Validate` trims fields in place.
- **Each backend folds its options with a loop.** The loop is proved to compute
  the specification fold.
- **The AES key buffer is an array**, filled by a copy loop.
- **Everything else is functions and lemmas.**

Foreign inputs become parameters:

- Driver, network and library failures are `Option<Error>` parameters, such as
  `TxFaults`, `ListFaults` and `fault`.
- The clock is `now`, an integer count of nanoseconds.
- Randomness is a `RandomSource`: the bytes a reader delivers before it fails.
- AES-GCM, HMAC-SHA-256, base64 and `url.QueryEscape` are function-valued
  parameters.
- The go-micro store is a map keyed on (database, table, key).
- The MongoDB database is a map from collection names to sequences of documents,
  in natural order.

Where the code departs from its own comments or structure:

- **No ordering between the two expiry options.** The comment at
  storage/storage.go:117-118 says TTL takes precedence over Expiry, but no code
  enforces that. The model forwards both fields unchanged.
- **MongoDB effects are not transactional.** The operation inside each MongoDB
  transaction runs under the outer context, not the session context `sc`
  (storage/mongo.go:121-128).
  `Transact` therefore promises no atomicity: an operation that succeeded stays
  applied when the commit fails.
- **Two cipher errors cannot happen.** The key handed to `aes.NewCipher` is always
  32 bytes, so the error returns at crypto/aes.go:58-61 and 86-89 are unreachable.
  `NormalizedKeyIsAesKey` proves this, and the methods do not model those dead
  branches.

## Model

| member | source | states |
|---|---|---|
| Base.ToInt64 | storage/mongo.go:73 | `int64(uint)` reinterprets the bits. The result is negative exactly when the value is at least 2^63, and it is congruent to the value modulo 2^64. |
| StorageOptions.ApplyReadFrame | storage/storage.go:59-113 | Each read option sets the fields it names to its argument unchanged. `ReadFrom` sets Database and Table. `ReadResult(nil)` sets Result back to nil. Every other field is unchanged. |
| StorageOptions.FoldReadEmpty | storage/storage.go:39-56 | Folding no read options gives the zero record: empty strings, Limit and Offset 0, no Result. |
| StorageOptions.FoldReadLastWins | storage/storage.go:37 | After a fold, each field holds the value written by the last option that sets it, or its zero value if no option sets it. |
| StorageOptions.ReadOptionsCommute | storage/storage.go:59-113 | Two read options that set disjoint fields commute. |
| StorageOptions.LastReadWriter | storage/storage.go:37 | Returns the index of the last option that sets a field, or none when no option sets it. |
| StorageOptions.CollectReadOptions | storage/memory.go:54-57 | The backends' `for` loop over read options computes the fold. |
| StorageOptions.ApplyWriteFrame | storage/storage.go:132-165 | Each write option sets only its own fields. `WriteTo` sets Database and Table. |
| StorageOptions.FoldWriteEmpty | storage/storage.go:119-129 | Folding no write options gives the zero record, with Expiry and TTL 0. |
| StorageOptions.FoldWriteLastWins | storage/storage.go:115 | The last writer of each write field determines it. |
| StorageOptions.FoldWriteUntouched | storage/storage.go:115 | Options that do not set a field leave it as the earlier options left it. |
| StorageOptions.WriteOptionsCommute | storage/storage.go:132-165 | Write options that set disjoint fields commute. |
| StorageOptions.LastWriteWriter | storage/storage.go:115 | Returns the index of the last write option that sets a field. |
| StorageOptions.CollectWriteOptions | storage/memory.go:97-100 | The write-option loop computes the fold. |
| StorageOptions.ApplyDeleteFrame | storage/storage.go:178-197 | Each delete option sets only its own fields. `DeleteFrom` sets Database and Table. |
| StorageOptions.FoldDeleteEmpty | storage/storage.go:168-172 | Folding no delete options gives the zero record. |
| StorageOptions.FoldDeleteLastWins | storage/storage.go:175 | The last writer of each delete field determines it. |
| StorageOptions.DeleteOptionsCommute | storage/storage.go:178-197 | Delete options that set disjoint fields commute. |
| StorageOptions.LastDeleteWriter | storage/storage.go:175 | Returns the index of the last delete option that sets a field. |
| StorageOptions.CollectDeleteOptions | storage/memory.go:121-124 | The delete-option loop computes the fold. |
| MicroStore.Enumerate | storage/memory.go:59-65 | Lists a set of matching keys once each. |
| MicroStore.Store.List | storage/memory.go:59-65 | The store's listing is a valid listing: distinct matching keys, at most Limit of them, all of them when neither Limit nor Offset is set. A store failure is returned instead. |
| MicroStore.Store.Read | storage/memory.go:81-86 | An exact-key read returns the record at (database, table, key), or `ErrNotFound`. |
| MicroStore.WriteThenReadRecord | storage/memory.go:107-111 | A record written into a table reads back under its key. The same key deleted reads as not found. |
| StorageMemory.MemoryStore.Init | storage/memory.go:48-50 | Init folds the store options into the held options and changes no records. |
| StorageMemory.MemoryStore.List | storage/memory.go:53-72 | A store error is returned before any decode. A missing Result is refused by the decoder. Otherwise a valid listing of the forwarded request is decoded. |
| StorageMemory.MemoryStore.Read | storage/memory.go:75-93 | Read's outcome is the store's exact-key read on the forwarded Key, Database, Table, Limit and Offset, decoded into Result. |
| StorageMemory.MemoryStore.Write | storage/memory.go:96-112 | A payload that is not a store record is refused and nothing changes. Otherwise the record is stored with the forwarded Database, Table, Expiry and TTL. |
| StorageMemory.MemoryStore.Update | storage/memory.go:115-117 | Update has exactly Write's effect and outcome. |
| StorageMemory.MemoryStore.Options | storage/memory.go:133-135 | Reports the wrapped store's options, which are those Init folded in. |
| StorageMemory.MemoryStore.Name | storage/memory.go:138-140 | Reports the wrapped go-micro store's name, "memory". |
| StorageMemory.MemoryStore.Delete | storage/memory.go:120-130 | Delete removes only the record at Key within Database and Table. The Value option is ignored. |
| StorageMemory.ReadOutcomeCases | storage/memory.go:81-92 | A missing key gives `ErrNotFound` even without Result. A found record without Result gives the decoder's refusal. Otherwise exactly the stored record is decoded. |
| StorageMemory.ReadIgnoresFilters | storage/memory.go:81-86 | Value, Prefix and Suffix do not affect Read. |
| StorageMemory.ListIgnoresKeyAndValue | storage/memory.go:59-65 | List forwards everything except Key, Value and Result. |
| StorageMemory.WriteRefusesOtherPayloads | storage/memory.go:102-105 | A non-record payload gives the invalid-result-option error and leaves the records unchanged. |
| StorageMemory.WriteIgnoresKeyAndValue | storage/memory.go:107-111 | The write options Key and Value are dropped. |
| StorageMemory.WriteThenRead | storage/memory.go:96-130 | After `WriteTo(d, t)` and other options that leave d and t alone, `ReadFrom(d, t)`, `ReadKey` and `ReadResult` read the record back. After Delete it reads as not found. |
| StorageMongo.Collection | storage/mongo.go:70 | A collection that was never written is empty. |
| StorageMongo.FirstMatch | storage/mongo.go:99-101 | Finds the first document in natural order whose Key field equals Value, or reports that none matches. |
| StorageMongo.MongoStore.Init | storage/mongo.go:48-61 | The loop folds the store options into the held options. Then the store is configured with Database, the first node and a 3-second timeout, or returns the configuration failure. At least one node is required. |
| StorageMongo.MongoStore.List | storage/mongo.go:64-89 | The outcome is `ListOutcome`: find error first, then a negative skip, then the missing Result, then the cursor drain, then Close. A failed Close is reported after Result is filled. |
| StorageMongo.MongoStore.Read | storage/mongo.go:92-112 | The outcome is `ReadOutcome`: the missing Result is checked first, then find failure or no documents, else the first match. |
| StorageMongo.MongoStore.Write | storage/mongo.go:115-129 | Inserts the payload into Table inside `Transact`, with the driver-generated `_id` added when it has none. The operation runs under the caller's context. |
| StorageMongo.MongoStore.Update | storage/mongo.go:132-148 | Applies `$set` to the first document matching `{Key: Value}` in Table, inside `Transact`. |
| StorageMongo.MongoStore.Delete | storage/mongo.go:151-169 | Deletes the first document matching `{Key: Value}` inside `Transact`. It runs under a fresh 3-second deadline, not the caller's context. |
| StorageMongo.TransactCommitsOnlyAfterSuccess | storage/mongo.go:121-128 | A commit is attempted exactly when the session started and the operation succeeded. Only then do the collections change, and they stay changed if the commit fails. Errors pass through unchanged. |
| StorageMongo.ReadRefusesMissingResultFirst | storage/mongo.go:103-105 | Without Result, Read gives the invalid-result-option error whatever the driver does. |
| StorageMongo.ReadResultNilRefused | storage/storage.go:109-113 | A later `ReadResult(nil)` clears an earlier target, and Read then refuses the call with the invalid-result-option error (storage/mongo.go:103-105). |
| StorageMongo.ListReportsFindErrorFirst | storage/mongo.go:76-82 | In List a find error comes before the missing-Result check. |
| StorageMongo.ListIgnoresFilters | storage/mongo.go:70-74 | List uses an empty filter on Table. Key, Value, Prefix, Suffix and Database do not matter. |
| StorageMongo.ReadFindsFirstMatch | storage/mongo.go:98-109 | With Result, a document is decoded exactly when some document matches `{Key: Value}`. It is a matching document of the collection. Otherwise the error is no documents. |
| StorageMongo.PageShape | storage/mongo.go:73 | A page has exactly min(want, available) documents, where available is what follows skip and want is \|limit\|, or everything when the limit is 0. It is the contiguous run that starts at skip. With no skip and no limit it is the whole collection. Limit n after offset m on at least m+n documents gives exactly those n. |
| StorageMongo.UpdateFirstShape | storage/mongo.go:140-142 | Only the first match changes, by merging in the payload. The length and every other document are unchanged. With no match nothing changes. |
| StorageMongo.SetFieldsMerges | storage/mongo.go:141 | `$set` overwrites the payload's fields and keeps the others. |
| StorageMongo.DeleteFirstShape | storage/mongo.go:161-163 | Exactly the first match is removed, and the other documents keep their order. The multisets agree. With no match nothing changes. |
| StorageMongo.WithId | storage/mongo.go:123 | The stored document always has `_id`. A payload that has one is stored as it is. Otherwise the driver's id is added and every other field is kept. |
| StorageMongo.WriteThenRead | storage/mongo.go:115-169 | An inserted document that is the only match is what Read decodes: the payload with its `_id`. Delete with the same filter restores the collection. |
| StorageMongo.FirstMatchAppend | storage/mongo.go:99-101 | Appending a match to a collection with no match makes the appended document the first match. |
| StorageMongo.MongoStore.Options | storage/mongo.go:172-174 | Reports the options Init folded in. |
| StorageMongo.MongoStore.Name | storage/mongo.go:177-179 | The adapter name is "mongodb". |
| StorageEmpty.AcceptsEverything | storage/empty.go:42-79 | Every operation succeeds for every input, Init included. Options is the zero value and the name is "empty". |
| StorageEmpty.AcceptsMissingResultUnlikeMongo | storage/empty.go:47-54 | Without Result the empty backend's Read and List succeed, while the mongo backend refuses them. |
| StorageSelector.InitOptionsFold | storage/storage.go:228-231 | Init on a fresh backend holds the configured database and exactly one node, the URL. |
| StorageSelector.BackendName | storage/storage.go:201-210 | The name a backend reports identifies it: "mongodb" exactly for the mongo backend and "empty" exactly for the empty one. |
| StorageSelector.NewStorage | storage/storage.go:219-236 | Type 1 gives a configured mongo backend. Every other type gives the empty backend. A failed Init returns no store. A returned backend is named "mongodb" for type 1 and "empty" otherwise. |
| Cache.CustomCache.Get | cache/cache.go:52-56 | The value and error are the store's lookup. The timestamp is `now` on success and on failure alike. |
| Cache.CustomCache.Put | cache/cache.go:62-64 | Stores the value under the key with expiration d. A store error is returned unchanged, and then nothing changes. |
| Cache.CustomCache.Delete | cache/cache.go:70-72 | Removes only the key. A store error is returned unchanged. |
| Cache.CustomCache.String | cache/cache.go:75-77 | Reports the name the cache was built under. `NewCache` ties that name to the configured type. |
| Cache.NewCache | cache/cache.go:85-106 | Type 2 gives a Redis cache named "Redis". Type 1 and every other value give a freecache named "Freecache", with size·1024·1024 bytes and a 10-second default expiration. |
| Cache.NameMatchesKind | cache/cache.go:86-105 | The name is "Redis" exactly for type 2 and "Freecache" otherwise, and the backing store agrees with the name. |
| Cache.PutThenGet | cache/cache.go:52-64 | A put value reads back before it expires and is a miss from then on. Other keys are unaffected. |
| Cache.DeleteThenGet | cache/cache.go:52-72 | A deleted key is a miss, and only it changes. |
| Cache.GetReportsFault | cache/cache.go:54-55 | A store failure is reported unchanged with no value. |
| ConfigCommon.LeadingSpace | config/server.go:65 | Counts the leading white space: all characters before it are white space, and the next character, if any, is not. |
| ConfigCommon.TrailingEnd | config/server.go:65 | Gives the length without trailing white space: everything after it is white space, and the character before it, if any, is not. |
| ConfigCommon.TrimSpace | config/storage.go:58-59 | The result is a run of the input with no white space at either end, and only white space was cut around it. |
| ConfigCommon.TrimSpaceIdempotent | config/server.go:65-68 | Trimming twice equals trimming once. |
| ConfigCommon.TrimSpaceEmptyIff | config/storage.go:58-62 | A string trims to "" exactly when it is all white space. |
| ConfigStorage.StorageCheck | config/storage.go:60-77 | For every type, an error is returned exactly when the URL is empty, with ("URL", "MongoDB driver expects a valid url"). The database name is never checked. |
| ConfigStorage.BlankUrlRejected | config/storage.go:58-73 | A whitespace-only URL is rejected. |
| ConfigStorage.UrlDecides | config/storage.go:58-77 | Any URL with a non-space character validates. |
| ConfigStorage.ValidateIdempotent | config/storage.go:57-78 | A second Validate changes nothing and gives the same answer. |
| ConfigStorage.StorageConfig.Validate | config/storage.go:57-78 | Trims URL and DB in place, keeps Type, and returns `StorageCheck` of the trimmed URL. |
| ConfigServer.FirstEmpty | config/server.go:70-96 | Finds the first empty value in order, or reports that none is empty. |
| ConfigServer.ServerCheckFirstEmpty | config/server.go:70-98 | Success holds exactly when all four fields are non-empty. Otherwise the error names the first empty field in the order Namespace, Name, Address, "Repl Address", with the reason "Should not be empty". |
| ConfigServer.ValidateIdempotent | config/server.go:64-99 | Re-trimming the four fields changes nothing. |
| ConfigServer.ServerConfig.Validate | config/server.go:64-99 | Trims the four fields in place, even when a check then fails. Leaves Version and Debug alone. Returns the first-empty error. |
| ConfigCache.Validate | config/cache.go:77-90 | An error occurs exactly when the type is 2 and the address is "", and it is ("Address", "Redis cache must have a valid address"). |
| ConfigCache.ValidateIgnoresOtherFields | config/cache.go:77-90 | Size, credentials and database play no part. |
| ConfigCache.BlankAddressAccepted | config/cache.go:80-86 | A whitespace-only Redis address is accepted, because nothing is trimmed. |
| ConfigMessaging.Validate | config/messaging.go:75-84 | An error occurs exactly when the broker is enabled, has no addresses and has a positive type. The error is ("Addrs", "Invalid number of addresses"). |
| ConfigMessaging.ValidateAccepts | config/messaging.go:76-83 | A disabled broker, or one whose type is not positive, validates. The ack, durable and requeue flags are ignored. |
| ConfigWorker.Validate | config/worker.go:68-77 | An error occurs exactly when the worker is enabled with no Redis address, and it is ("Worker address", "Should not be empty"). |
| ConfigWorker.ValidateIgnoresOtherFields | config/worker.go:68-77 | Type, concurrency and credentials play no part. |
| ConfigRegistry.Validate | config/registry.go:61-74 | Type 1 always validates. Every other type errors exactly when there are no addresses, with ("Addresses", "Length should be greater than zero"). |
| ConfigRegistry.ValidateIgnoresCacheTTL | config/registry.go:61-74 | CacheTTL plays no part. |
| Messaging.NewBroker | messaging/broker.go:47-97 | The broker options always start with Addrs and Registry. The rows of the decision table: disabled gives memory with zero subscribe options; type 1 gives RabbitMQ with WithoutExchange third and the built subscribe options; type 2 gives NATS; anything else gives memory. Subscribe options are built exactly for enabled type 1. |
| Messaging.RabbitSubscribeOptionsExact | messaging/broker.go:69-86 | An option is present exactly when its flag is set, in the order DisableAutoAck, AckOnSuccess, DurableQueue, RequeueOnError, each at most once. |
| Messaging.RankGrows | messaging/broker.go:69-84 | In the appended list, each element's rank is that of the flag block it came from. |
| Messaging.RabbitSubscribeOptionsEmpty | messaging/broker.go:69-86 | The list is empty exactly when no flag is set, and never has more than four entries. |
| Functional.Pipe.Do | functional/pipe.go:43-54 | The loop returns `Run` of the chain on the zero value. |
| Functional.Pipe.Next | functional/pipe.go:37-40 | Appends exactly one action at the end and returns the same pipe. |
| Functional.RunAppend | functional/pipe.go:37-51 | An action appended after a failing chain never runs. Otherwise it receives the chain's output. |
| Functional.RunNoFailure | functional/pipe.go:46-53 | A chain succeeds exactly when no action fails, and then it returns the left fold of the outputs. |
| Functional.RunStopsAtFailure | functional/pipe.go:48-50 | Whatever follows a failing chain does not change its outcome: the failing action's own value and error are returned. |
| Functional.RunEmpty | functional/pipe.go:43-53 | An empty chain gives the zero value and no error. |
| CryptoCommon.ReadFull | crypto/aes.go:69 | Exactly n bytes, or EOF when nothing was read, UnexpectedEOF when the source ran dry part way, and the source's own failure otherwise. |
| CryptoAes.NormalizedKey | crypto/aes.go:55-56 | Always 32 bytes: the key's first min(\|key\|, 32) bytes, then zeros. |
| CryptoAes.NormalizeKey | crypto/aes.go:55-56 | The copy loop into a zeroed 32-byte array yields `NormalizedKey`. |
| CryptoAes.NewCipher | crypto/aes.go:58-61 | Refuses a key exactly when its length is not 16, 24 or 32, with `KeySizeError(len)`. |
| CryptoAes.Encrypt | crypto/aes.go:54-76 | Returns base64 of the nonce followed by the sealed text, or "" and the randomness failure. |
| CryptoAes.Decrypt | crypto/aes.go:82-110 | Decodes, checks the length, splits at the nonce size and opens. |
| CryptoAes.NormalizedKeyIsAesKey | crypto/aes.go:55-61 | A normalised key is always accepted by `aes.NewCipher`. |
| CryptoAes.NormalizedKeyShape | crypto/aes.go:55-56 | A long key is truncated to 32 bytes. A short one is zero-padded to 32. |
| CryptoAes.NormalizedKeyPrefix | crypto/aes.go:55-56 | Keys that agree on their first 32 bytes, counting zero padding, normalise identically. |
| CryptoAes.FrameSplit | crypto/aes.go:73-106 | Splitting a frame at the nonce size recovers the nonce and the sealed part. |
| CryptoAes.EncryptThenDecrypt | crypto/aes.go:54-110 | Decrypt inverts Encrypt under the same key, given a base64 codec that round-trips and an AEAD that opens what it sealed. |
| CryptoAes.DecryptErrors | crypto/aes.go:96-104 | A base64 failure is passed on with "". A buffer shorter than the nonce gives the invalid-nonce-size error. |
| CryptoAes.DecryptSwallowsAuthFailure | crypto/aes.go:107-109 | An authentication failure yields "" and no error. |
| CryptoAes.EncryptNonceFailure | crypto/aes.go:68-71 | A randomness failure aborts Encrypt with "" and that failure. |
| CryptoState.HexEncode | crypto/state.go:72 | Produces two lower-case hex digits per byte. |
| CryptoState.HexRoundTrip | crypto/state.go:72 | Hex decoding inverts `HexEncode`. |
| CryptoState.RandomHex | crypto/state.go:67-73 | Returns 2n lower-case hex digits exactly when the source delivers n bytes, and "" with the failure otherwise. |
| CryptoState.HmacBase64 | crypto/state.go:79-88 | The error is exactly the write failure, and with it the string is "". On success a round-tripping codec decodes the result back to the HMAC of the message under the secret. |
| CryptoState.HmacBase64NonEmpty | crypto/state.go:78-88 | A successful call returns a non-empty string, given a 32-byte HMAC and a standard codec: one that round-trips and encodes no bytes as "". |
| CryptoState.RemovePlus | crypto/state.go:60 | The result contains no '+' and is shorter than the input by exactly its number of '+'. |
| CryptoState.UnescapedJoin | crypto/state.go:60 | With a token free of '+', the unescaped state is the HMAC without '+', then ".", then the token. |
| CryptoState.RemovePlusAppend | crypto/state.go:60 | Removing '+' distributes over concatenation. |
| CryptoState.RemovePlusNoPlus | crypto/state.go:60 | A string without '+' is unchanged. |
| CryptoState.GenerateState | crypto/state.go:45-61 | Succeeds exactly when 64 random bytes are available and the HMAC write succeeds. Otherwise it returns "" and the first error: the read error from `io.ReadFull` when the bytes run short, and the write failure otherwise. |
| CryptoState.StateShape | crypto/state.go:50-60 | The token is 128 hex digits. The HMAC is taken over the token under the secret. The unescaped state is the HMAC without '+', then ".", then the token intact. |
| CryptoState.NoPlusInHex | crypto/state.go:72 | Hex digits are neither '+' nor '.'. |
| CryptoState.UnescapedSplitsAtLastDot | crypto/state.go:60 | The unescaped state has no '+'. Its last '.' is the separator, and what follows it is exactly the token. |

## Left out

- Process exit from `log.Fatalln` is not modelled as termination. `NewStorage` returns no store instead.
- A `panic` from indexing an empty node list is excluded by `StorageMongo.MongoStore.Init`'s precondition.
- Use of the mongo backend before Init is not modelled. mgm would dereference an unset connection there.
- MongoDB sessions, isolation and rollback are not modelled, and no atomicity is claimed.
- StorageMongo.Inserted: the object id the driver generates for an insert is a parameter, and its format and uniqueness are not modelled. A payload whose own `_id` is already in the collection is appended as a second document; the duplicate-key error of the unique `_id` index is not modelled.
- BSON encoding, cursor decoding and mapstructure decoding are not modelled. Documents have string fields, and Result is a slot identified by a handle.
- The results of a find without a sort are taken in natural order, which is the sequence order.
- StorageMongo.ListOutcome: the server's refusal of a negative skip is represented by a single `NegativeSkip` error, and the driver's exact error value is not modelled.
- MicroStore.Store.List: go-micro's listing order and paging are not fixed. The model promises only a valid listing, and no particular page when an offset is set.
- MicroStore.WriteRecord: go-micro puts a record with an empty Database or Table under the store's default database and table. The model keeps "" as a namespace of its own, so it does not identify "" with those defaults.
- Expiry and TTL enforcement inside go-micro's store is not modelled. The values are stored with the record.
- Cache.CustomCache.Put: a duration that is not positive is modelled as no expiry. `Put` always passes `store.WithExpiration(d)` (cache/cache.go:63), which overrides the 10-second default of cache/memory.go:43 in the source as well, so the default is only recorded in `StoreKind`. Expiry is exact to the nanosecond: a backend that rounds durations to whole seconds, as freecache's store may, is not modelled, so a positive `d` under one second expires here but may not there. Freecache eviction and Redis expiry semantics, including negative durations, are not modelled.
- gocache's marshalling of values is not modelled. Values are stored as the given type.
- The 32-bit or 64-bit width of Go `int` in `size*1024*1024` and in the configuration types is not modelled. These are unbounded integers.
- `strings.TrimSpace` trims only ASCII white space (space, tab, LF, VT, FF, CR), not other Unicode spaces.
- The dead error branches after `aes.NewCipher` (crypto/aes.go:58-61, 86-89) and `cipher.NewGCM` (crypto/aes.go:63-66, 91-94) are not modelled. The key is always 32 bytes, and GCM over AES does not fail.
- AES (FIPS 197), GCM (NIST SP 800-38D), HMAC-SHA-256 (RFC 2104, FIPS 180-4), base64 (section 4 of RFC 4648), `url.QueryEscape` and `crypto/rand` are uninterpreted parameters.
- The strings handed to the crypto primitives are byte sequences, with no UTF-8 encoding.
- All `BuildNew*Config` constructors are left out, because they are file and environment I/O. So are the logger, resilience, CORS, trace and crypto configurations, which only set defaults.
- cache/memory.go and cache/redis.go are constructors over foreign libraries and are left out. Their parameters appear in `Cache.StoreKind`.
- events, service/repl, client and crypto/md5.go and crypto/crypto.go are left out: they are wiring over foreign libraries.
- Brokers and registries are foreign and appear only as a kind, an option list and a handle.
- `broker.NewSubscribeOptions` is not interpreted. The model records only the list it receives, for example how the list sets AutoAck.
- Concurrency is left out. Goroutine safety belongs to the drivers.
- Contexts are reduced to their deadline. The deadline's effect on timing is not modelled.
