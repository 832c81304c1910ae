/**
  The key/value store behind the facade and the client that talks to it.

  The store holds at most one entity per name. A client is an oracle: it
  says which of its multi-puts fail, and whether its reads fail, so that every
  error path of the facade can be stated without modelling the network.
 */
module Datastore {
  import opened Records
  import opened KeyOrder

  /** The DomainState kind of the store: one entity per domain name. */
  type Store = map<string, Entity>

  /** Record i is the last one in `updates` that writes its name. */
  ghost predicate LastWriteOf(updates: seq<DomainState>, i: int)
    requires 0 <= i < |updates|
  {
    forall j :: i < j < |updates| ==> updates[j].name != updates[i].name
  }

  /**
    The store after writing `updates` in order under their names: later
    records overwrite earlier ones with the same name (see ApplyWrites).
   */
  function Apply(store: Store, updates: seq<DomainState>): Store
    decreases |updates|
  {
    if |updates| == 0 then store
    else
      var last := updates[|updates| - 1];
      Apply(store, updates[..|updates| - 1])[last.name := ToEntity(last)]
  }

  /**
    Writing keeps every key, adds exactly the names written, leaves the
    entities of other names alone, and stores under each name the last
    record written with it.
   */
  lemma {:induction false} ApplyWrites(store: Store, updates: seq<DomainState>)
    ensures forall k :: k in Apply(store, updates) <==> k in store || k in Names(updates)
    ensures forall k :: k in store && k !in Names(updates) ==> Apply(store, updates)[k] == store[k]
    ensures forall i :: 0 <= i < |updates| && LastWriteOf(updates, i) ==>
              && updates[i].name in Apply(store, updates)
              && Apply(store, updates)[updates[i].name] == ToEntity(updates[i])
    decreases |updates|
  {
    if |updates| > 0 {
      var n := |updates| - 1;
      var front := updates[..n];
      ApplyWrites(store, front);
      assert Names(updates) == Names(front) + [updates[n].name];
      forall i | 0 <= i < |updates| && LastWriteOf(updates, i)
        ensures updates[i].name in Apply(store, updates)
        ensures Apply(store, updates)[updates[i].name] == ToEntity(updates[i])
      {
        if i < n {
          assert LastWriteOf(front, i);
          assert updates[n].name != updates[i].name;
        }
      }
    }
  }

  /** Writing a + b is writing a, then writing b. */
  lemma {:induction false} ApplyConcat(store: Store, a: seq<DomainState>, b: seq<DomainState>)
    ensures Apply(store, a + b) == Apply(Apply(store, a), b)
    decreases |b|
  {
    if |b| > 0 {
      assert (a + b)[..|a + b| - 1] == a + b[..|b| - 1];
      ApplyConcat(store, a, b[..|b| - 1]);
    } else {
      assert a + b == a;
    }
  }

  /** Every name written has a last write. */
  lemma {:induction false} LastWriteExists(updates: seq<DomainState>, k: string)
    requires k in Names(updates)
    ensures exists i :: 0 <= i < |updates| && updates[i].name == k && LastWriteOf(updates, i)
    decreases |updates|
  {
    var n := |updates| - 1;
    if updates[n].name != k {
      var front := updates[..n];
      assert Names(updates) == Names(front) + [updates[n].name];
      LastWriteExists(front, k);
      var i :| 0 <= i < |front| && front[i].name == k && LastWriteOf(front, i);
      assert LastWriteOf(updates, i);
    } else {
      assert LastWriteOf(updates, n);
    }
  }

  /** Writing the same batch a second time changes nothing. */
  lemma ApplyIdempotent(store: Store, updates: seq<DomainState>)
    ensures Apply(Apply(store, updates), updates) == Apply(store, updates)
  {
    var once := Apply(store, updates);
    var twice := Apply(once, updates);
    ApplyWrites(store, updates);
    ApplyWrites(once, updates);
    forall k | k in once
      ensures k in twice && twice[k] == once[k]
    {
      if k in Names(updates) {
        LastWriteExists(updates, k);
      }
    }
    assert twice.Keys == once.Keys;
  }

  /** An oracle for the outcome of each call a client makes. */
  datatype Client = Client(
    writeFault: nat -> Option<Error>, // the outcome of the n-th multi-put, counting from 0
    readFault: Option<Error>          // the outcome of every get and query
  )

  /** The n-th multi-put of a client: all of `chunk` is written, or nothing and an error. */
  function PutMulti(c: Client, store: Store, n: nat, chunk: seq<DomainState>): (r: Result<Store>)
    ensures r.Success? <==> c.writeFault(n).None?
    ensures r.Failure? ==> r.error == c.writeFault(n).value
    ensures r.Success? ==> r.value == Apply(store, chunk)
  {
    match c.writeFault(n)
    case Some(e) => Failure(e)
    case None => Success(Apply(store, chunk))
  }

  /** A single-key lookup; a missing key is the error NoSuchEntity. */
  function Get(c: Client, store: Store, key: string): (r: Result<Entity>)
    ensures c.readFault.None? ==> (r.Success? <==> key in store)
    ensures r.Success? ==> key in store && r.value == store[key]
    ensures c.readFault.None? && key !in store ==> r == Failure(NoSuchEntity)
    ensures c.readFault.Some? ==> r == Failure(c.readFault.value)
  {
    match c.readFault
    case Some(e) => Failure(e)
    case None => if key in store then Success(store[key]) else Failure(NoSuchEntity)
  }

  /**
    A query over the DomainState kind: an optional equality filter on the
    status, an optional lower bound (exclusive) on the key, and an optional
    limit on the number of results.
   */
  datatype Query = Query(status: Option<PreloadStatus>, after: Option<string>, limit: Option<nat>)

  /** The query of every DomainState entity. */
  const AllStates: Query := Query(None, None, None)

  predicate Matches(store: Store, q: Query, k: string)
  {
    && k in store
    && (q.status.Some? ==> store[k].status == q.status.value)
    && (q.after.Some? ==> Less(q.after.value, k))
  }

  /** The first n of ks, or all of them when there are fewer. */
  function Take(ks: seq<string>, n: nat): (r: seq<string>)
    ensures |r| == if |ks| <= n then |ks| else n
    ensures r == ks[..|r|]
  {
    if |ks| <= n then ks else ks[..n]
  }

  /** Every key matching the query's filters, in ascending order. */
  function MatchingKeys(store: Store, q: Query): (keys: seq<string>)
    ensures Sorted(keys)
    ensures forall k :: k in keys <==> Matches(store, q, k)
  {
    SortedKeys(set k | k in store && Matches(store, q, k))
  }

  /**
    The keys a query returns. The store does not promise an order to a
    query without one; this model returns every query's keys in ascending
    order, which is the order the key-ordered query asks for. A limit keeps
    the smallest matching keys.
   */
  function RunQuery(store: Store, q: Query): (keys: seq<string>)
    ensures Sorted(keys)
    ensures forall k :: k in keys ==> Matches(store, q, k)
    ensures q.limit.Some? ==> |keys| <= q.limit.value
    ensures forall k :: Matches(store, q, k) && k !in keys ==>
              && q.limit.Some? && |keys| == q.limit.value
              && forall i :: 0 <= i < |keys| ==> Less(keys[i], k)
  {
    var all := MatchingKeys(store, q);
    var keys := if q.limit.Some? then Take(all, q.limit.value) else all;
    assert forall k :: k in keys ==> k in all;
    forall k | Matches(store, q, k) && k !in keys
      ensures q.limit.Some? && |keys| == q.limit.value
      ensures forall i :: 0 <= i < |keys| ==> Less(keys[i], k)
    {
      assert k in all;
      var j :| 0 <= j < |all| && all[j] == k;
      assert forall i :: 0 <= i < |keys| ==> keys[i] == all[i];
    }
    keys
  }

  /** The GetAll of a client: the keys of the query, or the client's read fault. */
  function GetAll(c: Client, store: Store, q: Query): (r: Result<seq<string>>)
    ensures r.Success? <==> c.readFault.None?
    ensures r.Failure? ==> r.error == c.readFault.value
    ensures r.Success? ==> r.value == RunQuery(store, q)
  {
    match c.readFault
    case Some(e) => Failure(e)
    case None => Success(RunQuery(store, q))
  }

  /** The records stored under `keys`, each named after its key. */
  function StatesOf(store: Store, keys: seq<string>): (ds: seq<DomainState>)
    requires forall k :: k in keys ==> k in store
    ensures Names(ds) == keys
    ensures forall i :: 0 <= i < |ds| ==> ToEntity(ds[i]) == store[keys[i]]
  {
    seq(|keys|, i requires 0 <= i < |keys| => FromEntity(keys[i], store[keys[i]]))
  }
}
