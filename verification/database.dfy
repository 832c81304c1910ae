/**
  The hstspreload database facade (database/database.go): batched writes of
  domain states, and the reads over the DomainState kind.

  Every operation acquires its own client from the backend; the store it
  reads or writes is passed in, and a write returns the store it leaves.
 */
module Database {
  import opened Records
  import opened KeyOrder
  import opened Chunking
  import opened Datastore
  import opened Backends

  const LocalProjectID: string := "hstspreload-local"
  const ProdProjectID: string := "hstspreload"

  /** The number of results Autocomplete asks the store for. */
  const AutocompleteLimit: nat := 5

  /** A database backed by a datastore backend. */
  datatype DatastoreBacked = DatastoreBacked(backend: Backend, projectID: string)

  /** What TempLocalDatabase gives: the database, its shutdown, an error, the advanced port counter. */
  datatype TempDatabase = TempDatabase(db: DatastoreBacked, shutdown: Shutdown, err: Option<Error>, ports: PortCounter)

  /**
    A database on a freshly started local emulator. The start error is
    passed on to the caller (see NewLocalDatastoreChecked).
   */
  function TempLocalDatabase(ports: PortCounter, startErr: Option<Error>, dial: Result<Client>): (r: TempDatabase)
    ensures r.db.projectID == LocalProjectID
    ensures r.db.backend.LocalDatastore? && r.db.backend.addr != ""
    ensures NewClient(r.db.backend) == dial
    ensures r.shutdown == KillEmulator <==> r.err.None?
    ensures r.err == startErr
    ensures r.ports.nextPort == ports.nextPort + 1
  {
    var s := NewLocalDatastoreChecked(ports, startErr, dial);
    TempDatabase(DatastoreBacked(s.db, LocalProjectID), s.shutdown, s.err, s.ports)
  }

  /** A database on the production datastore. */
  function ProdDatabase(dial: Result<Client>): (db: DatastoreBacked)
    ensures db.projectID == ProdProjectID && NewClient(db.backend) == dial
  {
    DatastoreBacked(NewProdDatastore(dial), ProdProjectID)
  }

  /******** Writes ********/

  /**
    The outcome of writing the chunks of `updates` with client c, starting
    from `store`: `writes` is a non-empty prefix of the chunks, every write
    but the last succeeded, a run without error wrote every chunk and so all
    of `updates`, and a run that failed reports the error of its last write
    and leaves the store as the chunks before it made it.
   */
  ghost predicate ChunkedWrite(c: Client, store: Store, updates: seq<DomainState>,
                               err: Option<Error>, writes: seq<seq<DomainState>>, store': Store)
  {
    && 0 < |writes| <= |Chunks(updates)|
    && writes == Chunks(updates)[..|writes|]
    && (forall n :: 0 <= n < |writes| - 1 ==> c.writeFault(n).None?)
    && (err.None? ==> writes == Chunks(updates) && c.writeFault(|writes| - 1).None?)
    && (err.Some? ==> err == c.writeFault(|writes| - 1))
    && (err.None? ==> |writes| == |updates| / BatchSize + 1 && store' == Apply(store, updates))
    && (err.Some? ==> store' == Apply(store, Concat(writes[..|writes| - 1])))
  }

  /** The state of the write loop before it writes `chunk`, the next chunk of the input. */
  ghost predicate BeforeWrite(c: Client, store: Store, updates: seq<DomainState>, start: nat,
                              chunk: seq<DomainState>, writes: seq<seq<DomainState>>, store': Store)
  {
    && start + |chunk| <= |updates|
    && chunk == updates[start..start + |chunk|]
    && |writes| < |Chunks(updates)|
    && Chunks(updates)[..|writes| + 1] == writes + [chunk]
    && Concat(writes) == updates[..start]
    && (forall n :: 0 <= n < |writes| ==> c.writeFault(n).None?)
    && store' == Apply(store, updates[..start])
  }

  /** Closing a full chunk: it is the next chunk of the input. */
  lemma FullChunk(c: Client, store: Store, updates: seq<DomainState>, start: nat, next: nat,
                  chunk: seq<DomainState>, writes: seq<seq<DomainState>>, store': Store)
    requires next == start + BatchSize <= |updates| && chunk == updates[start..next]
    requires Chunks(updates) == writes + Chunks(updates[start..])
    requires Concat(writes) == updates[..start]
    requires forall n :: 0 <= n < |writes| ==> c.writeFault(n).None?
    requires store' == Apply(store, updates[..start])
    ensures BeforeWrite(c, store, updates, start, chunk, writes, store')
    ensures Chunks(updates) == (writes + [chunk]) + Chunks(updates[next..])
  {
    assert updates[start..][..BatchSize] == chunk;
    assert updates[start..][BatchSize..] == updates[next..];
  }

  /** Closing the final, short chunk: it is the last chunk of the input. */
  lemma LastChunk(c: Client, store: Store, updates: seq<DomainState>, start: nat, chunk: seq<DomainState>,
                  writes: seq<seq<DomainState>>, store': Store)
    requires start <= |updates| && chunk == updates[start..] && |chunk| < BatchSize
    requires Chunks(updates) == writes + Chunks(updates[start..])
    requires Concat(writes) == updates[..start]
    requires forall n :: 0 <= n < |writes| ==> c.writeFault(n).None?
    requires store' == Apply(store, updates[..start])
    ensures BeforeWrite(c, store, updates, start, chunk, writes, store')
    ensures Chunks(updates) == writes + [chunk]
  {
    assert Chunks(updates[start..]) == [chunk];
  }

  /** A failed write ends the run with the outcome ChunkedWrite describes. */
  lemma WriteFailed(c: Client, store: Store, updates: seq<DomainState>, start: nat, chunk: seq<DomainState>,
                    writes: seq<seq<DomainState>>, store': Store)
    requires BeforeWrite(c, store, updates, start, chunk, writes, store')
    requires c.writeFault(|writes|).Some?
    ensures ChunkedWrite(c, store, updates, c.writeFault(|writes|), writes + [chunk], store')
  {
    var ws := writes + [chunk];
    assert ws[..|ws| - 1] == writes;
    assert Chunks(updates)[..|ws|] == ws;
  }

  /** A successful write of a full chunk: the loop goes on after it. */
  lemma WriteDone(c: Client, store: Store, updates: seq<DomainState>, start: nat, next: nat,
                  chunk: seq<DomainState>, writes: seq<seq<DomainState>>, store': Store)
    requires BeforeWrite(c, store, updates, start, chunk, writes, store')
    requires next == start + |chunk|
    requires c.writeFault(|writes|).None?
    ensures Concat(writes + [chunk]) == updates[..next]
    ensures forall n :: 0 <= n < |writes + [chunk]| ==> c.writeFault(n).None?
    ensures Apply(store', chunk) == Apply(store, updates[..next])
  {
    ConcatAppend(writes, chunk);
    ApplyConcat(store, updates[..start], chunk);
    assert updates[..start] + chunk == updates[..next];
  }

  /** A successful write of the last chunk ends the run with every update written. */
  lemma AllWritten(c: Client, store: Store, updates: seq<DomainState>, start: nat, chunk: seq<DomainState>,
                   writes: seq<seq<DomainState>>, store': Store)
    requires BeforeWrite(c, store, updates, start, chunk, writes, store')
    requires Chunks(updates) == writes + [chunk]
    requires c.writeFault(|writes|).None?
    ensures ChunkedWrite(c, store, updates, None, writes + [chunk], Apply(store', chunk))
  {
    ConcatChunks(updates);
    ConcatAppend(writes, chunk);
    assert start + |chunk| == |updates|;
    WriteDone(c, store, updates, start, |updates|, chunk, writes, store');
    assert updates[..|updates|] == updates;
  }

  /** The multi-puts of PutStates once a client is acquired: the loop of database.go. */
  method WriteChunks(client: Client, store: Store, updates: seq<DomainState>)
    returns (err: Option<Error>, writes: seq<seq<DomainState>>, store': Store)
    ensures ChunkedWrite(client, store, updates, err, writes, store')
  {
    var chunk: seq<DomainState> := [];
    writes, store' := [], store;
    var i := 0;
    ghost var start := 0;  // where the current chunk begins
    while i < |updates|
      invariant 0 <= start <= i <= |updates|
      invariant chunk == updates[start..i] && |chunk| < BatchSize
      invariant Chunks(updates) == writes + Chunks(updates[start..])
      invariant Concat(writes) == updates[..start]
      invariant forall n :: 0 <= n < |writes| ==> client.writeFault(n).None?
      invariant store' == Apply(store, updates[..start])
    {
      chunk := chunk + [updates[i]];
      i := i + 1;
      if |chunk| >= BatchSize {
        FullChunk(client, store, updates, start, i, chunk, writes, store');
        var put := PutMulti(client, store', |writes|, chunk);
        if put.Failure? {
          WriteFailed(client, store, updates, start, chunk, writes, store');
          return Some(put.error), writes + [chunk], store';
        }
        WriteDone(client, store, updates, start, i, chunk, writes, store');
        writes, store', chunk, start := writes + [chunk], put.value, [], i;
      }
    }
    err, writes, store' := WriteLastChunk(client, store, updates, start, chunk, writes, store');
  }

  /** The unconditional multi-put after the loop, of the chunk that is left (possibly empty). */
  method WriteLastChunk(client: Client, store: Store, updates: seq<DomainState>, ghost start: nat,
                        chunk: seq<DomainState>, writes: seq<seq<DomainState>>, store': Store)
    returns (err: Option<Error>, writes': seq<seq<DomainState>>, store'': Store)
    requires start <= |updates| && chunk == updates[start..] && |chunk| < BatchSize
    requires Chunks(updates) == writes + Chunks(updates[start..])
    requires Concat(writes) == updates[..start]
    requires forall n :: 0 <= n < |writes| ==> client.writeFault(n).None?
    requires store' == Apply(store, updates[..start])
    ensures ChunkedWrite(client, store, updates, err, writes', store'')
  {
    LastChunk(client, store, updates, start, chunk, writes, store');
    var put := PutMulti(client, store', |writes|, chunk);
    if put.Failure? {
      WriteFailed(client, store, updates, start, chunk, writes, store');
      return Some(put.error), writes + [chunk], store';
    }
    AllWritten(client, store, updates, start, chunk, writes, store');
    return None, writes + [chunk], put.value;
  }

  /**
    Write `updates` in chunks of at most BatchSize entries.

    `writes` lists the multi-puts issued, in order; `store'` is the store
    afterwards. An empty input is a success that opens no client. A client
    that cannot be acquired is reported with nothing written. Otherwise the
    chunks are written in order and the first failing write ends the run
    (ChunkedWrite).
   */
  method PutStates(db: DatastoreBacked, store: Store, updates: seq<DomainState>)
    returns (err: Option<Error>, writes: seq<seq<DomainState>>, store': Store)
    ensures |updates| == 0 ==> err == None && writes == [] && store' == store
    ensures |updates| > 0 && NewClient(db.backend).Failure? ==>
              err == Some(NewClient(db.backend).error) && writes == [] && store' == store
    ensures |updates| > 0 && NewClient(db.backend).Success? ==>
              ChunkedWrite(NewClient(db.backend).value, store, updates, err, writes, store')
  {
    if |updates| == 0 {
      return None, [], store;
    }
    var conn := NewClient(db.backend);
    if conn.Failure? {
      return Some(conn.error), [], store;
    }
    err, writes, store' := WriteChunks(conn.value, store, updates);
  }

  /**
    Write one state: PutStates of a one-element batch, so a single
    multi-put of that one entry under its name.
   */
  method PutState(db: DatastoreBacked, store: Store, update: DomainState)
    returns (err: Option<Error>, writes: seq<seq<DomainState>>, store': Store)
    ensures NewClient(db.backend).Failure? ==>
              err == Some(NewClient(db.backend).error) && writes == [] && store' == store
    ensures NewClient(db.backend).Success? ==>
              var c := NewClient(db.backend).value;
              && writes == [[update]]
              && err == c.writeFault(0)
              && store' == (if err.None? then store[update.name := ToEntity(update)] else store)
  {
    err, writes, store' := PutStates(db, store, [update]);
    if NewClient(db.backend).Success? {
      assert Chunks([update]) == [[update]];
      assert Concat(writes[..0]) == [];
      assert Apply(store, []) == store;
      assert Apply(store, [update]) == store[update.name := ToEntity(update)];
    }
  }

  /******** Reading back what was written ********/

  /**
    After a batched write that succeeded, looking up a written name gives
    the last record written under it (with the name left empty, as
    StateForDomain always does).
   */
  lemma ReadYourWrites(db: DatastoreBacked, c: Client, store: Store, updates: seq<DomainState>,
                       writes: seq<seq<DomainState>>, store': Store, i: nat)
    requires NewClient(db.backend) == Success(c) && c.readFault.None?
    requires ChunkedWrite(c, store, updates, None, writes, store')
    requires i < |updates| && LastWriteOf(updates, i)
    ensures StateForDomain(db, store', updates[i].name)
            == Success(DomainState("", updates[i].status, updates[i].extra))
  {
    ApplyWrites(store, updates);
  }

  /** A name that was neither stored before nor written is in StatusUnknown afterwards. */
  lemma UnwrittenIsUnknown(db: DatastoreBacked, c: Client, store: Store, updates: seq<DomainState>,
                           writes: seq<seq<DomainState>>, store': Store, domain: string)
    requires NewClient(db.backend) == Success(c) && c.readFault.None?
    requires ChunkedWrite(c, store, updates, None, writes, store')
    requires domain !in store && domain !in Names(updates)
    ensures StateForDomain(db, store', domain) == Success(DomainState("", StatusUnknown, ""))
  {
    ApplyWrites(store, updates);
  }

  /** Repeating a batched write that succeeded leaves the store as the first one left it. */
  lemma RewriteIsIdempotent(c: Client, store: Store, updates: seq<DomainState>,
                            writes: seq<seq<DomainState>>, store': Store,
                            writes2: seq<seq<DomainState>>, store'': Store)
    requires ChunkedWrite(c, store, updates, None, writes, store')
    requires ChunkedWrite(c, store', updates, None, writes2, store'')
    ensures store'' == store'
  {
    ApplyIdempotent(store, updates);
  }

  /******** Reads ********/

  /**
    The records a query selects, each named after its key: the name stored
    with a value is never trusted.
   */
  function StatesForQuery(db: DatastoreBacked, store: Store, q: Query): (r: Result<seq<DomainState>>)
    ensures NewClient(db.backend).Failure? ==> r == Failure(NewClient(db.backend).error)
    ensures NewClient(db.backend).Success? ==>
              (r.Success? <==> NewClient(db.backend).value.readFault.None?)
    ensures NewClient(db.backend).Success? && r.Failure? ==>
              r.error == NewClient(db.backend).value.readFault.value
    ensures r.Success? ==> NewClient(db.backend).Success? && NewClient(db.backend).value.readFault.None?
    ensures r.Success? ==>
              && Names(r.value) == RunQuery(store, q)
              && forall i :: 0 <= i < |r.value| ==>
                   r.value[i].name in store && ToEntity(r.value[i]) == store[r.value[i].name]
  {
    match NewClient(db.backend)
    case Failure(e) => Failure(e)
    case Success(client) =>
      match GetAll(client, store, q)
      case Failure(e) => Failure(e)
      case Success(keys) => Success(StatesOf(store, keys))
  }

  /** The key names a query selects (a keys-only query). */
  function DomainsForQuery(db: DatastoreBacked, store: Store, q: Query): (r: Result<seq<string>>)
    ensures NewClient(db.backend).Failure? ==> r == Failure(NewClient(db.backend).error)
    ensures NewClient(db.backend).Success? ==>
              (r.Success? <==> NewClient(db.backend).value.readFault.None?)
    ensures NewClient(db.backend).Success? && r.Failure? ==>
              r.error == NewClient(db.backend).value.readFault.value
    ensures r.Success? ==> NewClient(db.backend).Success? && NewClient(db.backend).value.readFault.None?
    ensures r.Success? ==> r.value == RunQuery(store, q)
  {
    match NewClient(db.backend)
    case Failure(e) => Failure(e)
    case Success(client) => GetAll(client, store, q)
  }

  /**
    The state of one domain. A domain with no entity is in StatusUnknown,
    which is not an error; the name of the returned record is left empty
    either way. Other lookup errors are passed on.
   */
  function StateForDomain(db: DatastoreBacked, store: Store, domain: string): (r: Result<DomainState>)
    ensures NewClient(db.backend).Failure? ==> r == Failure(NewClient(db.backend).error)
    ensures r.Success? ==> r.value.name == ""
    ensures NewClient(db.backend).Success? && NewClient(db.backend).value.readFault.None? ==>
              && r.Success?
              && (domain in store ==> ToEntity(r.value) == store[domain])
              && (domain !in store ==> r.value == DomainState("", StatusUnknown, ""))
    ensures NewClient(db.backend).Success? && NewClient(db.backend).value.readFault.Some? ==>
              var e := NewClient(db.backend).value.readFault.value;
              && (e == NoSuchEntity ==> r == Success(DomainState("", StatusUnknown, "")))
              && (e != NoSuchEntity ==> r == Failure(e))
  {
    match NewClient(db.backend)
    case Failure(e) => Failure(e)
    case Success(client) =>
      match Get(client, store, domain)
      case Success(e) => Success(FromEntity("", e))
      case Failure(NoSuchEntity) => Success(DomainState("", StatusUnknown, ""))
      case Failure(e) => Failure(e)
  }

  /** Every stored domain state, each named after its key, each exactly once. */
  function AllDomainStates(db: DatastoreBacked, store: Store): (r: Result<seq<DomainState>>)
    ensures NewClient(db.backend).Failure? ==> r == Failure(NewClient(db.backend).error)
    ensures NewClient(db.backend).Success? ==>
              (r.Success? <==> NewClient(db.backend).value.readFault.None?)
    ensures NewClient(db.backend).Success? && r.Failure? ==>
              r.error == NewClient(db.backend).value.readFault.value
    ensures r.Success? ==>
              && (forall k :: k in Names(r.value) <==> k in store)
              && (forall i, j :: 0 <= i < j < |r.value| ==> r.value[i].name != r.value[j].name)
              && (forall i :: 0 <= i < |r.value| ==> ToEntity(r.value[i]) == store[r.value[i].name])
  {
    var r := StatesForQuery(db, store, AllStates);
    if r.Success? then
      SortedDistinct(Names(r.value));
      r
    else r
  }

  /** The query of the domains whose status is `status`. */
  function StatusQuery(status: PreloadStatus): (q: Query)
    ensures q.limit.None?
    ensures forall store: Store, k :: Matches(store, q, k) <==> k in store && store[k].status == status
  {
    Query(Some(status), None, None)
  }

  /** Exactly the names of the domains whose stored status is `status`, each once. */
  function DomainsWithStatus(db: DatastoreBacked, store: Store, status: PreloadStatus): (r: Result<seq<string>>)
    ensures NewClient(db.backend).Failure? ==> r == Failure(NewClient(db.backend).error)
    ensures NewClient(db.backend).Success? ==>
              (r.Success? <==> NewClient(db.backend).value.readFault.None?)
    ensures NewClient(db.backend).Success? && r.Failure? ==>
              r.error == NewClient(db.backend).value.readFault.value
    ensures r.Success? ==>
              && (forall k :: k in r.value <==> k in store && store[k].status == status)
              && (forall i, j :: 0 <= i < j < |r.value| ==> r.value[i] != r.value[j])
  {
    var r := DomainsForQuery(db, store, StatusQuery(status));
    if r.Success? then
      SortedDistinct(r.value);
      r
    else r
  }

  /******** Autocomplete ********/

  /** The query of the first few keys strictly after `prefix`, in key order. */
  function AutocompleteQuery(prefix: string): (q: Query)
    ensures q.limit == Some(AutocompleteLimit)
    ensures forall store: Store, k :: Matches(store, q, k) <==> k in store && Less(prefix, k)
  {
    Query(None, Some(prefix), Some(AutocompleteLimit))
  }

  /** The records whose name starts with `prefix`, in their original order. */
  function KeepPrefixed(prefix: string, ds: seq<DomainState>): (r: seq<DomainState>)
    ensures |r| <= |ds|
    ensures forall d :: d in r <==> d in ds && prefix <= d.name
    decreases |ds|
  {
    if |ds| == 0 then []
    else if prefix <= ds[0].name then [ds[0]] + KeepPrefixed(prefix, ds[1..])
    else KeepPrefixed(prefix, ds[1..])
  }

  lemma {:induction false} KeepPrefixedAppend(prefix: string, a: seq<DomainState>, b: seq<DomainState>)
    ensures KeepPrefixed(prefix, a + b) == KeepPrefixed(prefix, a) + KeepPrefixed(prefix, b)
    decreases |a|
  {
    if |a| == 0 {
      assert a + b == b;
    } else {
      assert (a + b)[1..] == a[1..] + b;
      KeepPrefixedAppend(prefix, a[1..], b);
    }
  }

  /** Filtering records that all start with the prefix keeps them all. */
  lemma {:induction false} KeepPrefixedAll(prefix: string, a: seq<DomainState>)
    requires forall i :: 0 <= i < |a| ==> prefix <= a[i].name
    ensures KeepPrefixed(prefix, a) == a
    decreases |a|
  {
    if |a| > 0 {
      KeepPrefixedAll(prefix, a[1..]);
    }
  }

  /** Filtering records none of which start with the prefix keeps none. */
  lemma {:induction false} KeepPrefixedNone(prefix: string, a: seq<DomainState>)
    requires forall i :: 0 <= i < |a| ==> !(prefix <= a[i].name)
    ensures KeepPrefixed(prefix, a) == []
    decreases |a|
  {
    if |a| > 0 {
      KeepPrefixedNone(prefix, a[1..]);
    }
  }

  lemma StatesOfAppend(store: Store, a: seq<string>, b: seq<string>)
    requires forall k :: k in a + b ==> k in store
    ensures StatesOf(store, a + b) == StatesOf(store, a) + StatesOf(store, b)
  {
    var l, r := StatesOf(store, a + b), StatesOf(store, a) + StatesOf(store, b);
    assert |l| == |r|;
    forall i | 0 <= i < |l|
      ensures l[i] == r[i]
    {
      assert Names(l)[i] == l[i].name && Names(r)[i] == r[i].name;
      if i < |a| {
        assert Names(StatesOf(store, a))[i] == r[i].name;
      } else {
        assert Names(StatesOf(store, b))[i - |a|] == r[i].name;
      }
    }
  }

  /** The stored names that start with `prefix` and are longer than it. */
  function Extensions(store: Store, prefix: string): set<string>
  {
    set k | k in store && prefix <= k && k != prefix
  }

  /** The stored names after `prefix` that do not start with it. */
  function Others(store: Store, prefix: string): set<string>
  {
    set k | k in store && Less(prefix, k) && !(prefix <= k)
  }

  /**
    In key order, the keys after `prefix` are first every extension of
    `prefix`, then every other key.
   */
  lemma ExtensionsThenOthers(store: Store, prefix: string)
    ensures MatchingKeys(store, AutocompleteQuery(prefix))
            == SortedKeys(Extensions(store, prefix)) + SortedKeys(Others(store, prefix))
  {
    var e, o := SortedKeys(Extensions(store, prefix)), SortedKeys(Others(store, prefix));
    var joined := e + o;
    forall i, j | 0 <= i < j < |joined|
      ensures Less(joined[i], joined[j])
    {
      if j < |e| {
      } else if i >= |e| {
        assert joined[i] == o[i - |e|] && joined[j] == o[j - |e|];
      } else {
        assert joined[i] in e && joined[j] == o[j - |e|];
        assert o[j - |e|] in o;
        ExtensionsComeFirst(prefix, joined[i], joined[j]);
      }
    }
    forall k
      ensures k in joined <==> Matches(store, AutocompleteQuery(prefix), k)
    {
      if k in Extensions(store, prefix) {
        ProperPrefixIsLess(prefix, k);
      }
      if Less(prefix, k) {
        LessIrreflexive(k);
      }
    }
    SortedUnique(MatchingKeys(store, AutocompleteQuery(prefix)), joined);
  }

  /** The first n of a + b: the first n of a, then as many of b as there is room for. */
  lemma TakeConcat(a: seq<string>, b: seq<string>, n: nat)
    ensures Take(a + b, n) == Take(a, n) + Take(b, n - |Take(a, n)|)
    ensures forall k :: k in Take(a, n) ==> k in a
    ensures forall k :: k in Take(b, n - |Take(a, n)|) ==> k in b
  {
    if |a| >= n {
      assert (a + b)[..n] == a[..n];
    }
  }

  /** Filtering the records of keys that all start with the prefix keeps them all. */
  lemma KeepPrefixedStatesAll(store: Store, prefix: string, keys: seq<string>)
    requires forall k :: k in keys ==> k in store && prefix <= k
    ensures KeepPrefixed(prefix, StatesOf(store, keys)) == StatesOf(store, keys)
  {
    var ds := StatesOf(store, keys);
    forall i | 0 <= i < |ds|
      ensures prefix <= ds[i].name
    {
      assert Names(ds)[i] == ds[i].name;
    }
    KeepPrefixedAll(prefix, ds);
  }

  /** Filtering the records of keys none of which start with the prefix keeps none. */
  lemma KeepPrefixedStatesNone(store: Store, prefix: string, keys: seq<string>)
    requires forall k :: k in keys ==> k in store && !(prefix <= k)
    ensures KeepPrefixed(prefix, StatesOf(store, keys)) == []
  {
    var ds := StatesOf(store, keys);
    forall i | 0 <= i < |ds|
      ensures !(prefix <= ds[i].name)
    {
      assert Names(ds)[i] == ds[i].name;
    }
    KeepPrefixedNone(prefix, ds);
  }

  /**
    The range scan of Autocomplete: the first extensions of the prefix,
    then, if there are fewer than AutocompleteLimit of them, the first keys
    after the prefix that do not start with it.
   */
  lemma AutocompleteScan(store: Store, prefix: string) returns (first: seq<string>, rest: seq<string>)
    ensures first == Take(SortedKeys(Extensions(store, prefix)), AutocompleteLimit)
    ensures rest == Take(SortedKeys(Others(store, prefix)), AutocompleteLimit - |first|)
    ensures RunQuery(store, AutocompleteQuery(prefix)) == first + rest
    ensures forall k :: k in first ==> k in store && prefix <= k
    ensures forall k :: k in rest ==> k in store && !(prefix <= k)
  {
    var e, o := SortedKeys(Extensions(store, prefix)), SortedKeys(Others(store, prefix));
    ExtensionsThenOthers(store, prefix);
    assert RunQuery(store, AutocompleteQuery(prefix)) == Take(e + o, AutocompleteLimit);
    TakeConcat(e, o, AutocompleteLimit);
    first, rest := Take(e, AutocompleteLimit), Take(o, AutocompleteLimit - |Take(e, AutocompleteLimit)|);
    forall k | k in rest
      ensures k in store && !(prefix <= k)
    {
      assert k in o;
      assert k in Others(store, prefix);
    }
  }

  /**
    The filtered range scan returns exactly the first AutocompleteLimit
    extensions of the prefix in key order: the post-filter only cuts off
    keys past the end of the extensions, never one in between.
   */
  lemma AutocompleteFirstExtensions(store: Store, prefix: string)
    ensures forall k :: k in RunQuery(store, AutocompleteQuery(prefix)) ==> k in store
    ensures forall k :: k in Take(SortedKeys(Extensions(store, prefix)), AutocompleteLimit) ==> k in store
    ensures KeepPrefixed(prefix, StatesOf(store, RunQuery(store, AutocompleteQuery(prefix))))
            == StatesOf(store, Take(SortedKeys(Extensions(store, prefix)), AutocompleteLimit))
  {
    var first, rest := AutocompleteScan(store, prefix);
    StatesOfAppend(store, first, rest);
    KeepPrefixedAppend(prefix, StatesOf(store, first), StatesOf(store, rest));
    KeepPrefixedStatesAll(store, prefix, first);
    KeepPrefixedStatesNone(store, prefix, rest);
  }

  /**
    Up to five domain states whose names start with `prefix`: the store is
    asked for the five smallest keys strictly after `prefix`, and those
    that do not start with it are dropped. The result is exactly the first
    five extensions of `prefix` in key order; the prefix itself is never
    returned.
   */
  function Autocomplete(db: DatastoreBacked, store: Store, prefix: string): (r: Result<seq<DomainState>>)
    ensures NewClient(db.backend).Failure? ==> r == Failure(NewClient(db.backend).error)
    ensures r.Success? <==> NewClient(db.backend).Success? && NewClient(db.backend).value.readFault.None?
    ensures NewClient(db.backend).Success? && r.Failure? ==>
              r.error == NewClient(db.backend).value.readFault.value
    ensures r.Success? ==>
              && (forall k :: k in Take(SortedKeys(Extensions(store, prefix)), AutocompleteLimit) ==> k in store)
              && r.value == StatesOf(store, Take(SortedKeys(Extensions(store, prefix)), AutocompleteLimit))
  {
    match StatesForQuery(db, store, AutocompleteQuery(prefix))
    case Failure(e) => Failure(e)
    case Success(ds) =>
      AutocompleteFirstExtensions(store, prefix);
      Success(KeepPrefixed(prefix, ds))
  }

  /**
    What callers see of Autocomplete: at most five records, in ascending
    name order, each a stored domain strictly longer than the prefix and
    starting with it, each among the five smallest keys after the prefix.
   */
  lemma AutocompleteBounds(db: DatastoreBacked, store: Store, prefix: string)
    ensures var r := Autocomplete(db, store, prefix);
            r.Success? ==>
              && |r.value| <= AutocompleteLimit
              && Sorted(Names(r.value))
              && forall i :: 0 <= i < |r.value| ==>
                   && prefix <= r.value[i].name
                   && Less(prefix, r.value[i].name)
                   && r.value[i].name in RunQuery(store, AutocompleteQuery(prefix))
                   && r.value[i].name in store
                   && ToEntity(r.value[i]) == store[r.value[i].name]
  {
    var r := Autocomplete(db, store, prefix);
    if r.Success? {
      ExtensionsThenOthers(store, prefix);
      var e := SortedKeys(Extensions(store, prefix));
      var first := Take(e, AutocompleteLimit);
      var keys := RunQuery(store, AutocompleteQuery(prefix));
      assert first == keys[..|first|];
      forall i | 0 <= i < |r.value|
        ensures prefix <= r.value[i].name && Less(prefix, r.value[i].name)
        ensures r.value[i].name in keys
      {
        assert Names(r.value)[i] == r.value[i].name;
        assert r.value[i].name == first[i] && first[i] in e;
        ProperPrefixIsLess(prefix, r.value[i].name);
        assert keys[i] == first[i];
      }
    }
  }
}
