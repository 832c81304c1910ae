# hstspreload database facade, in Dafny

A model of the database layer of hstspreload.org (package `database`), with proofs
of its properties. The model covers two parts.

The first is the `DatastoreBacked` facade in `database/database.go`:
- batched writes of `DomainState` records (`PutStates`, `PutState`);
- the reads over the `DomainState` kind (`statesForQuery`, `domainsForQuery`,
  `StateForDomain`, `AllDomainStates`, `DomainsWithStatus`, `Autocomplete`);
- the two constructors `TempLocalDatabase` and `ProdDatabase`.

The second is the backend layer in `database/datastore_backend.go`:
- the process-wide port counter (`portString`);
- the address and command that `NewLocalDatastore` builds;
- the empty-address guard in `LocalDatastore.NewClient`.

Modules, one per concept:

- `Records` (records.dfy): `DomainState`, the stored `Entity`, errors, `Option` and `Result`.
  A stored entity has no name: a record's name is always its key.
- `KeyOrder` (key_order.dfy): lexicographic order on strings by code point, which is
  the byte order of their UTF-8 encoding, and so the order the store gives keys (names
  that are not valid UTF-8 are not represented; see "## Left out"). It proves
  that this is a strict total order and that the keys of a set sort in exactly one way.
  It also proves the two facts about prefixes that Autocomplete relies on.
- `Decimal` (decimal.dfy): `strconv.Itoa` on naturals, and its inverse.
- `Chunking` (chunking.dfy): how the write loop splits a batch. It makes full chunks of 450
  entries, then always one last chunk with what is left, which may be empty.
- `Datastore` (datastore.dfy): the store, as a map from domain name to entity. Clients
  are oracles. A client's `writeFault(n)` is the outcome of its n-th multi-put and its
  `readFault` is the outcome of every read. This states every error path without
  modelling the network. Queries have an optional status filter, an optional exclusive
  key lower bound and an optional limit.
- `Backends` (backends.dfy): the local and production backends, the port counter and
  `NewLocalDatastore`.
- `Database` (database.dfy): the facade.

Each facade operation takes the store it reads, and a write also returns the store it
leaves. `PutStates` returns the multi-puts it issued as well, so that the chunking is
stated about the calls made, not only about the final store.

Modelling choices:

- A query without an explicit order returns its keys in ascending key order in this model.
  The store promises no order there, so this is one admissible behaviour. The key-ordered
  query of `Autocomplete` needs exactly this order.
- The client library's calls are stand-ins, assumed rather than proved:
  `Datastore.PutMulti` writes its whole chunk, or writes nothing and returns the client's
  fault for that call; `Datastore.Get` returns the stored entity, the not-found error for
  a missing key, or the client's read fault; `Datastore.GetAll` returns the keys of
  `RunQuery` or the client's read fault.
- A multi-put that fails writes nothing.
- Within one multi-put, a later record with the same name overwrites an earlier one.
- Where the expected behaviour and the code differ, the model follows the code. The
  expected behaviour is that a lookup of a missing domain returns a record named after
  it. But `StateForDomain` never sets the `Name` field: it stays empty for a found
  domain and for a missing one (database/database.go:161, 176).

## Model

| member | source | states |
|---|---|---|
| Database.PutStates | database/database.go:57-104 | An empty batch succeeds, opens no client and writes nothing. A client that cannot be acquired is returned as the error, with nothing written. Otherwise the outcome is a `ChunkedWrite`: the multi-puts issued are the chunks of the batch in order, up to and including the first one that fails. The run succeeds only if every chunk was written, and then the store holds the whole batch. A failed run returns that write's error and leaves the store as the earlier chunks made it. |
| Database.WriteChunks | database/database.go:84-102 | The loop of multi-puts over the chunks reaches the `ChunkedWrite` outcome. Its loop invariant relates the chunks written so far, and the pending chunk, to the chunk partition of the input. |
| Database.WriteLastChunk | database/database.go:100-103 | The unconditional multi-put after the loop completes the outcome. It writes the remainder (possibly empty) as the final chunk, or reports its error. |
| Database.FullChunk | database/database.go:91-92 | A pending chunk that has reached 450 entries is the next chunk of the input. The chunks after it are the chunks of the rest of the input. |
| Database.LastChunk | database/database.go:100 | The remainder after the loop is exactly the last chunk of the input. |
| Database.WriteFailed | database/database.go:92-94 | A failing multi-put ends the run with its error. The store keeps exactly the earlier chunks and no later chunk is attempted. |
| Database.WriteDone | database/database.go:92-97 | After a successful multi-put, the chunks written concatenate to the input up to that point. The store holds exactly that prefix of the batch. |
| Database.AllWritten | database/database.go:100-103 | A successful final multi-put means every chunk was written. There were length/450 + 1 of them, and the store holds the whole batch. |
| Database.PutState | database/database.go:106-109 | Writing one record is a single multi-put holding just that record. On success the store gets the record's entity under its name, and on failure the store is unchanged. |
| Database.ReadYourWrites | database/database.go:57-104 | After a successful batched write, looking up a written name gives the status and fields of the last record written under that name. |
| Database.UnwrittenIsUnknown | database/database.go:172-177 | After a successful batched write, a name that was never stored and not in the batch reads back as `StatusUnknown` without error. |
| Database.RewriteIsIdempotent | database/database.go:57-104 | Repeating a successful batched write leaves the store exactly as the first write left it. |
| Database.StatesForQuery | database/database.go:112-134 | A client failure is returned unchanged. With a client, the call succeeds exactly when the read does, and a read error is returned unchanged. On success the result names are exactly the keys the query selects, in order. Each record carries the entity stored under its key, and its name comes from the key. |
| Database.DomainsForQuery | database/database.go:137-158 | A client failure is returned unchanged. With a client, the call succeeds exactly when the read does, and a read error is returned unchanged. On success the result is the keys the query selects. |
| Database.StateForDomain | database/database.go:161-182 | A client failure is returned unchanged. A stored domain gives its stored entity. A missing domain gives `StatusUnknown` and no error, also when the store reports the not-found error. Any other read error is returned. The name is always left empty. |
| Database.AllDomainStates | database/database.go:185-187 | Client and read errors are returned unchanged, and the call succeeds whenever both work. The result names are exactly the stored keys, each once. Each record carries its key's entity. |
| Database.DomainsWithStatus | database/database.go:190-192 | Client and read errors are returned unchanged, and the call succeeds whenever both work. The result is exactly the stored names whose status equals the argument, each once. |
| Database.KeepPrefixed | database/database.go:212-217 | The post-filter keeps exactly the records whose name starts with the prefix. It never adds anything. |
| Database.AutocompleteQuery | database/database.go:199-207 | The scan selects exactly the stored keys strictly after the prefix, at most 5 of them. |
| Database.StatusQuery | database/database.go:191 | The status query selects exactly the stored names whose status equals the argument, with no limit. |
| Database.AutocompleteScan | database/database.go:199-208 | The range scan of keys strictly after the prefix, limited to 5, is the first extensions of the prefix in key order. If there are fewer than 5 extensions, it continues with keys that do not start with the prefix. |
| Database.AutocompleteFirstExtensions | database/database.go:202-218 | The filtered scan equals the records of the first 5 extensions of the prefix in key order. The filter only cuts keys past the end of the extensions, never one in between. |
| Database.Autocomplete | database/database.go:196-219 | A client or read error is returned unchanged, and the call succeeds whenever both work. On success the result is exactly the records of the 5 smallest stored names that strictly extend the prefix, in key order. |
| Database.AutocompleteBounds | database/database.go:194-219 | At most 5 records are returned, in ascending name order. Each starts with the prefix and is strictly greater than it, so an exact match is never returned. Each is one of the 5 smallest keys after the prefix and carries its stored entity. |
| Database.TempLocalDatabase | database/database.go:42-45 | A temporary database is a local backend with a non-empty address under the local project ID. It advances the port counter by one, its clients are whatever connecting gives, its start error is passed to the caller, and the shutdown handed back kills the emulator exactly when there is no error. |
| Database.ProdDatabase | database/database.go:49-51 | The production database uses the production project ID, and its clients are whatever connecting gives. |
| Datastore.RunQuery | database/database.go:200-208 | The keys are sorted and every one matches the filters. The limit bounds their number. A matching key is left out only when the limit is reached, and then it is greater than every key returned. |
| Datastore.MatchingKeys | database/database.go:186-191 | The keys of a filtered scan are exactly the stored keys that pass the status filter and the key bound, in ascending order. |
| Datastore.StatesOf | database/database.go:127-131 | Each record is named after its key and carries the entity stored under that key. |
| Datastore.ApplyWrites | database/database.go:86-90 | Writing records keeps every key and adds exactly the names written. Other names are untouched, and each name holds the last record written under it. |
| Datastore.ApplyConcat | database/database.go:92-100 | Writing the chunks one after the other is writing their concatenation. |
| Datastore.ApplyIdempotent | database/database.go:86-90 | Writing the same records twice leaves the store as writing them once. |
| Chunking.Chunks | database/database.go:84-100 | A batch of length L gives L/450 + 1 chunks of at most 450 entries each. All but the last are full, so the last is empty when L is a multiple of 450. |
| Chunking.ConcatChunks | database/database.go:84-100 | The chunks concatenate back to the batch, in order. |
| Chunking.ChunkAt | database/database.go:84-100 | Chunk j is the slice of the batch that starts at 450 * j. It is the last chunk exactly when it is not full. |
| KeyOrder.LessIrreflexive | database/database.go:205 | No key is after itself, so `__key__ >` excludes the prefix itself. |
| KeyOrder.LessTransitive | database/database.go:207 | Key order is transitive. |
| KeyOrder.LessTotal | database/database.go:207 | Any two distinct keys are ordered one way or the other. |
| KeyOrder.LessAsymmetric | database/database.go:207 | No two keys are each before the other. |
| KeyOrder.ProperPrefixIsLess | database/database.go:205 | A name that strictly extends the prefix comes after the prefix. |
| KeyOrder.ExtensionsComeFirst | database/database.go:205-214 | Every extension of a prefix comes before every key after the prefix that does not start with it. |
| KeyOrder.SortedKeys | database/database.go:207 | Ordering by key gives a strictly ascending sequence of exactly the given keys. |
| KeyOrder.SortedUnique | database/database.go:207 | Two ascending sequences of the same keys are equal, so ordering by key determines the result. |
| KeyOrder.SortedDistinct | database/database.go:185-192 | An ascending sequence of keys has no repeats. |
| Records.EntityRoundTrip | database/database.go:127-131 | A record stored under its name and read back under that key is the same record. |
| Decimal.Itoa | database/datastore_backend.go:58 | The rendering of a number is non-empty decimal text with no leading zero, except for 0 itself. |
| Decimal.CanonicalIsItoa | database/datastore_backend.go:58 | Any decimal text of a number without leading zeros is exactly its rendering, so the port string is fixed by the port. |
| Decimal.AtoiItoa | database/datastore_backend.go:58 | The port string is the decimal rendering of the port. Reading it back gives the port. |
| Decimal.ItoaInjective | database/datastore_backend.go:58 | Different ports have different decimal renderings. |
| Backends.PortString | database/datastore_backend.go:51-59 | Each call returns the decimal text of the current counter, without leading zeros, and advances the counter by exactly one. |
| Backends.PortStrings | database/datastore_backend.go:51-59 | n successive calls return the ports counter, counter + 1, …, counter + n - 1, and advance the counter by n. |
| Backends.FirstPortString | database/datastore_backend.go:46-49 | The first port a process hands out is "9001", and the next is 9002. |
| Backends.PortsDistinct | database/datastore_backend.go:51-59 | The ports of successive calls are strictly increasing and pairwise distinct. |
| Backends.EmulatorCommand | database/datastore_backend.go:73-82 | The emulator command has nine arguments, and the `-p` option is followed by the allocated port string. |
| Backends.NewLocalDatastore | database/datastore_backend.go:66-97 | As written: the address is "localhost:" followed by the port string just allocated (decimal, no leading zeros), the emulator command uses that port, and the counter advances. The returned error is always nil, and the shutdown kills the emulator exactly when it started. |
| Backends.SwallowedStartError | database/datastore_backend.go:85-88 | An emulator that fails to start is reported as a success with a no-op shutdown. The returned backend still dials. |
| Backends.NewLocalDatastoreChecked | database/datastore_backend.go:85-88 | Corrected: the same backend and counter, with the start error reported. The shutdown kills the emulator exactly when there is no error. |
| Backends.LocalAddressesDistinct | database/datastore_backend.go:69-71 | Two local backends started one after another get different addresses. |
| Backends.LocalBackendHasAddress | database/datastore_backend.go:107-109 | A backend made by NewLocalDatastore is never refused for an empty address. |
| Backends.NewProdDatastore | database/datastore_backend.go:128-138 | The production backend needs no configuration, and its client is whatever connecting gives, with no address check. |
| Backends.NewClient | database/datastore_backend.go:101-123 | A local backend with an empty address fails without dialing. Any other backend, local or production, gives what connecting gives. |

## Left out

- Timeouts and cancellation (`context.WithTimeout`): they concern time, which the model does not have.
- Progress messages of `PutStates`: the logger is a sink whose output nothing reads.
- The mutex around the port counter: the model is sequential, and the counter is threaded through as a value.
- Starting and killing the emulator process, and the one-second wait: process I/O. The outcome of starting is a parameter.
- gRPC dialing and the client library's `NewClient`: network and foreign code. The client they give, or their error, is the `dial` parameter of a backend.
- The project ID a database carries is recorded but not passed to the client. The two backend layers disagree on whether `NewClient` takes one, and the client oracle does not depend on it.
- The `gcd.Backend` package that database.go calls is not part of this model. Both backend layers are modelled as one "acquire a client or fail" operation.
- The members of `PreloadStatus` come from a file that is not part of this model. The facade only compares statuses for equality, so the five listed stand for the real set.
- Datastore.PutMulti: the store's behaviour on a failed multi-put is not specified. The model writes nothing, though a real store could apply part of the chunk.
- Datastore.PutMulti: two records with the same name in one multi-put are written in order, the later one winning. The store does not specify this.
- Database.StatesForQuery: on a read error the source also returns whatever records were decoded before it. The model returns only the error.
- Database.StateForDomain: on a read error other than not-found, the source also returns the partly filled record. The model returns only the error.
- Backends.PortString: the counter is an unbounded natural. Past 65535 the port string names no TCP port, so the emulator cannot listen on it; the source does not check this either. The source's `int` would only wrap after 2^63 - 1 ports.
- Database.TempLocalDatabase: database.go builds it on `gcd.NewLocalBackend`, which is not part of this model. The model builds it on the corrected NewLocalDatastoreChecked, so that the start error reaches the caller; whether the real constructor reports that error is not known here.
- Non-UTF-8 names: names and prefixes are modelled as Unicode text (`seq<char>`), while Go strings are byte strings. A name or prefix that is not valid UTF-8 (such as the prefix "\xc3", which `strings.HasPrefix` finds at the start of "é.com") is not represented. On valid UTF-8 text, the byte comparisons of `HasPrefix` and of the key order agree with the code-point comparisons used here.
- Empty names: a key made from the empty name is incomplete in the store, which gives each put a fresh numeric ID. Two writes of a record named "" therefore make two entities, and a lookup or a range scan from "" uses an incomplete key. The model treats "" as an ordinary key, so its promises hold for non-empty domain names (and non-empty Autocomplete prefixes) only.
- database/datastore_test.go: it does not compile (an undefined variable, and `PutState` called as a free function), and it states no behaviour.

## Findings

| source | as written | input that shows it | evidently intended | confidence | as-written member | corrected member |
|---|---|---|---|---|---|---|
| database/datastore_backend.go:85-88 | When the emulator process fails to start, `NewLocalDatastore` returns a nil error and a no-op shutdown. | Any call where `cmd.Start()` fails, e.g. `java` missing: the caller gets a backend with no server behind it, and the function reports success. | Return the start error: the comment before the function tells callers to call shutdown only when there is no error, which presumes a failed start is reported. | not executed | Backends.SwallowedStartError | Backends.NewLocalDatastoreChecked |
